# Branch store (filial)

A Dafny model of `filial.py`, a small store of branch ("filial") records.
Each record has an integer `id`, a name (`nome`) and a neighbourhood
(`bairro`). The records live as a JSON list in `data/filiais.json`. Each of
`add_filial`, `get_filial` and `get_filiais` loads that file afresh;
`get_filial_proxima` only scans a hardcoded table. `add_filial` also writes
the whole list back. Every operation returns an integer status code instead
of raising.

The model has two modules:

- `Wrappers` (`wrappers.dfy`): the `Option` type that stands for Python's `None`.
- `Filiais` (`filiais.dfy`): the status codes, the record types, the four
  operations and the properties proved about them.

The result of loading the file is the value `Load`:

- `NotFound` is a missing file.
- `InvalidJson` is text that is not JSON.
- `Loaded(filiais)` is the list of records, in storage order.

The file itself is the class `FiliaisJson`. Its field `contents` is what the
file holds now. `add_filial` is the method `FiliaisJson.AddFilial`, which
replaces `contents` when it writes. `get_filial` and `get_filiais` are pure
functions of a `Load`. `get_filial_proxima` is a method with a `for` loop over
the hardcoded table. It is proved equal to the recursive first-match
function `NearestIn`.

The source does not forbid duplicate ids in a file that was written by
something else. So the reads are specified by first match (`IsFirstWithId`).
Uniqueness (`UniqueIds`) is a property that `add_filial` preserves, not an
invariant of the class.

`filial.py` has no delete operation: `__all__` at `filial.py:5` exports only
the four operations modelled here.

## Model

| member | source | states |
|---|---|---|
| `Filiais.FirstWithId` | filial.py:75 | finds a record iff some record has the id; the record found is at the first position holding that id |
| `Filiais.GetFilial` | filial.py:61-84 | 30 with None for a missing file; 31 with None for invalid JSON; 33 with None when no record has the id; 0 iff a record has the id, and then the name and neighbourhood of the first such record |
| `Filiais.Infos` | filial.py:97 | same length as the records; entry i is record i without its id |
| `Filiais.GetFiliais` | filial.py:86-103 | 30 with [] for a missing file; 31 with [] for invalid JSON; 0 iff the file loaded; then one entry per record, in storage order, each without its id |
| `Filiais.FiliaisJson.AddFilial` | filial.py:21-59 | 30 or 31 on a load failure, file unchanged; 34 when the id is already present, file unchanged; otherwise 0, and the file holds the old list with exactly `{id, nome, bairro}` appended; pairwise distinct ids stay pairwise distinct |
| `Filiais.CreateThenGet` | filial.py:21-84 | on a file without the id: the first create returns 0; a second create with the same id returns 34 and leaves the file alone; get then returns 0 with the first create's values |
| `Filiais.NearestIn` | filial.py:116-129 | returns 0 iff some table entry has the neighbourhood name, and then the branch id of the first such entry; otherwise 35 with None |
| `Filiais.GetFilialProxima` | filial.py:105-129 | the loop over the hardcoded table returns what the first-match lookup `NearestIn` gives |
| `Filiais.AppendKeepsUniqueIds` | filial.py:39-47 | appending a record whose id is absent keeps the ids pairwise distinct |
| `Filiais.FirstWithIdAppend` | filial.py:75 | the first match in `a + b` is the first match in `a` if `a` has the id, else the first match in `b` |
| `Filiais.AddThenGet` | filial.py:43-78 | after appending `{id, n, b}` for an absent id, get_filial(id) returns 0 and `{n, b}`, even if other ids repeat |
| `Filiais.AddKeepsOtherGets` | filial.py:43-78 | appending a record leaves get_filial's reply for every other id unchanged |
| `Filiais.GetFindsStoredRecord` | filial.py:75-77 | with pairwise distinct ids, get_filial of a stored record's id returns exactly that record without its id |
| `Filiais.InfosAppend` | filial.py:97 | the listing of `a + b` is the listing of `a` followed by the listing of `b` |
| `Filiais.AddThenList` | filial.py:43-97 | after appending a record, get_filiais returns 0 and the old listing with the new record, without its id, at the end |
| `Filiais.NearestExamples` | filial.py:116-129 | Tijuca gives 1, Ipanema gives 2, Vila Isabel gives 1, Copacabana gives 35 with None |
| `Filiais.NearestIsOneOrTwo` | filial.py:116-124 | any branch id get_filial_proxima reports is 1 or 2 |
| `Filiais.NoReadReturnsWriteError` | filial.py:16 | code 32 (write error) is never returned by get_filial, get_filiais or get_filial_proxima; `AddFilial`'s contract excludes it as well |

## Left out

- Path computation and opening, reading and writing the file (`filial.py:8-10`, 35, 50-51, 73, 95) are operating-system I/O. The load is the input value `Load`, and the write is the assignment to `FiliaisJson.contents`.
- `json.load` and `json.dump` (with `indent=4`) are library code. Parsing is reduced to "the load yields `NotFound`, `InvalidJson` or `Loaded(records)`". The pretty-printing has no counterpart.
- The catch-all `except Exception` that returns 34 (`filial.py:58-59`, 83-84, 102-103) is not modelled. It covers open or read failures other than a missing file (no permission, a directory at the path, bytes that do not decode), valid JSON that is not a list of well-formed records (a missing key, a number at the top level) and a failed write. All of these come from foreign code, and `Load` cannot express them. Records are assumed to be well formed, and the write always succeeds.
- A top level that is valid JSON, iterable and empty but not a list (`{}` or `""`) does not reach the catch-all: `get_filial` then returns 33 with None and `get_filiais` returns 0 with []. The model's `Loaded([])` gives the same two replies. `add_filial` on such a file fails at the append (filial.py:43) and returns 34, where the model appends. `Load` does not distinguish such a file from an empty list.
- `Filiais.FiliaisJson.AddFilial`: does not model a write that fails part-way. In the source such a write returns 34 and may leave the file truncated.
- Records are typed, with an integer `id`. Python's `==` between an `int` id and a float or boolean JSON value (`1.0 == 1`) is not modelled.
- Code 32 (`ERRO_NA_ESCRITA_DO_ARQUIVO`) is defined but never returned, so it has no behaviour to model apart from the lemma that it is not returned.
- Concurrent callers and atomicity of the rewrite are not modelled: the source has neither.
