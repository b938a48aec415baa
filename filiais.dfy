/**
 * The branch ("filial") store of filial.py: a JSON file holding a list of
 * records `{id, nome, bairro}`, the three exported operations that read or
 * rewrite it, and the exported lookup in a hardcoded neighbourhood table.
 *
 * Each of `add_filial`, `get_filial` and `get_filiais` opens the file afresh;
 * the model represents the outcome of that load as a `Load` value. The one
 * mutating operation, `add_filial`, is a method of the class `FiliaisJson`,
 * whose field stands for what the file currently holds. `get_filial` and
 * `get_filiais` are functions of the loaded value. `get_filial_proxima` never
 * opens the file: it is a loop over a constant table.
 */
module Filiais {
  import opened Wrappers

  // ---------------------------------------------------------------------
  // Status codes (filial.py:13-19): every operation returns one of these
  // integers instead of raising.
  // ---------------------------------------------------------------------

  const OperacaoRealizadaComSucesso: int := 0
  const ArquivoNaoEncontrado: int := 30
  const ArquivoEmFormatoInvalido: int := 31
  /** Defined by the source but returned by no operation. */
  const ErroNaEscritaDoArquivo: int := 32
  const FilialNaoEncontrada: int := 33
  const ErroDesconhecido: int := 34
  const BairroNaoEncontrado: int := 35

  // ---------------------------------------------------------------------
  // Data model
  // ---------------------------------------------------------------------

  /** One stored record of filiais.json. */
  datatype Filial = Filial(id: int, nome: string, bairro: string) {
    /** The record as the read operations report it: without its `id`. */
    function Info(): FilialInfo {
      FilialInfo(nome, bairro)
    }
  }

  /** The dictionary `{'nome': ..., 'bairro': ...}` returned by the reads. */
  datatype FilialInfo = FilialInfo(nome: string, bairro: string)

  /**
   * What opening and parsing filiais.json yields: the file is missing
   * (FileNotFoundError), its text is not JSON (JSONDecodeError), or it holds
   * the list of records, in storage order.
   */
  datatype Load = NotFound | InvalidJson | Loaded(filiais: seq<Filial>)

  /** Some stored record carries `id` (the `any(...)` of filial.py:39). */
  predicate HasId(filiais: seq<Filial>, id: int) {
    exists i :: 0 <= i < |filiais| && filiais[i].id == id
  }

  /** No two stored records share an id: the rule add_filial enforces. */
  predicate UniqueIds(filiais: seq<Filial>) {
    forall i, j :: 0 <= i < j < |filiais| ==> filiais[i].id != filiais[j].id
  }

  /** Position `i` holds the first record whose id is `id`. */
  predicate IsFirstWithId(filiais: seq<Filial>, id: int, i: int) {
    && 0 <= i < |filiais|
    && filiais[i].id == id
    && forall j :: 0 <= j < i ==> filiais[j].id != id
  }

  // ---------------------------------------------------------------------
  // get_filial (filial.py:61-84)
  // ---------------------------------------------------------------------

  /**
   * The first record whose id is `id`, or None: the first-match `next(...)`
   * of filial.py:75.
   */
  function FirstWithId(filiais: seq<Filial>, id: int): (r: Option<Filial>)
    ensures r.Some? <==> HasId(filiais, id)
    ensures r.Some? ==> exists i :: IsFirstWithId(filiais, id, i) && r.value == filiais[i]
  {
    if filiais == [] then None
    else if filiais[0].id == id then
      assert IsFirstWithId(filiais, id, 0);
      Some(filiais[0])
    else
      var r := FirstWithId(filiais[1..], id);
      assert HasId(filiais[1..], id) <==> HasId(filiais, id) by {
        if HasId(filiais, id) {
          var i :| 0 <= i < |filiais| && filiais[i].id == id;
          assert filiais[1..][i - 1].id == id;
        }
      }
      assert r.Some? ==> exists i :: IsFirstWithId(filiais, id, i) && r.value == filiais[i] by {
        if r.Some? {
          var i :| IsFirstWithId(filiais[1..], id, i) && r.value == filiais[1..][i];
          assert IsFirstWithId(filiais, id, i + 1);
        }
      }
      r
  }

  /**
   * get_filial(id): the status code and, on success, the first matching
   * record without its id.
   */
  function GetFilial(load: Load, id: int): (r: (int, Option<FilialInfo>))
    ensures load.NotFound? ==> r == (ArquivoNaoEncontrado, None)
    ensures load.InvalidJson? ==> r == (ArquivoEmFormatoInvalido, None)
    ensures load.Loaded? && !HasId(load.filiais, id) ==> r == (FilialNaoEncontrada, None)
    ensures r.0 == OperacaoRealizadaComSucesso <==> load.Loaded? && HasId(load.filiais, id)
    ensures r.0 == OperacaoRealizadaComSucesso ==>
      exists i :: IsFirstWithId(load.filiais, id, i) && r.1 == Some(load.filiais[i].Info())
  {
    match load
    case NotFound => (ArquivoNaoEncontrado, None)
    case InvalidJson => (ArquivoEmFormatoInvalido, None)
    case Loaded(filiais) =>
      match FirstWithId(filiais, id)
      case Some(f) => (OperacaoRealizadaComSucesso, Some(f.Info()))
      case None => (FilialNaoEncontrada, None)
  }

  // ---------------------------------------------------------------------
  // get_filiais (filial.py:86-103)
  // ---------------------------------------------------------------------

  /** Every record without its id, in storage order (filial.py:97). */
  function Infos(filiais: seq<Filial>): (r: seq<FilialInfo>)
    ensures |r| == |filiais|
    ensures forall i :: 0 <= i < |filiais| ==> r[i] == filiais[i].Info()
  {
    if filiais == [] then [] else [filiais[0].Info()] + Infos(filiais[1..])
  }

  /** get_filiais(): the status code and the list of all records without ids. */
  function GetFiliais(load: Load): (r: (int, seq<FilialInfo>))
    ensures load.NotFound? ==> r == (ArquivoNaoEncontrado, [])
    ensures load.InvalidJson? ==> r == (ArquivoEmFormatoInvalido, [])
    ensures r.0 == OperacaoRealizadaComSucesso <==> load.Loaded?
    ensures load.Loaded? ==>
      && |r.1| == |load.filiais|
      && forall i :: 0 <= i < |load.filiais| ==> r.1[i] == FilialInfo(load.filiais[i].nome, load.filiais[i].bairro)
  {
    match load
    case NotFound => (ArquivoNaoEncontrado, [])
    case InvalidJson => (ArquivoEmFormatoInvalido, [])
    case Loaded(filiais) => (OperacaoRealizadaComSucesso, Infos(filiais))
  }

  // ---------------------------------------------------------------------
  // add_filial (filial.py:21-59)
  // ---------------------------------------------------------------------

  /** The file filiais.json, whose whole content add_filial may replace. */
  class FiliaisJson {
    var contents: Load

    constructor (initial: Load)
      ensures contents == initial
    {
      contents := initial;
    }

    /**
     * add_filial(id, nome, bairro): load the records; refuse an id already
     * present with the generic error; otherwise append the new record and
     * write the whole list back.
     */
    method AddFilial(id: int, nome: string, bairro: string) returns (status: int)
      modifies this
      ensures old(contents).NotFound? ==> status == ArquivoNaoEncontrado && contents == old(contents)
      ensures old(contents).InvalidJson? ==> status == ArquivoEmFormatoInvalido && contents == old(contents)
      ensures old(contents).Loaded? && HasId(old(contents).filiais, id) ==>
        status == ErroDesconhecido && contents == old(contents)
      ensures old(contents).Loaded? && !HasId(old(contents).filiais, id) ==>
        status == OperacaoRealizadaComSucesso && contents == Loaded(old(contents).filiais + [Filial(id, nome, bairro)])
      ensures old(contents).Loaded? && UniqueIds(old(contents).filiais) ==>
        contents.Loaded? && UniqueIds(contents.filiais)
    {
      match contents
      case NotFound =>
        status := ArquivoNaoEncontrado;
      case InvalidJson =>
        status := ArquivoEmFormatoInvalido;
      case Loaded(loaded) =>
        var filiais := loaded;
        if HasId(filiais, id) {
          return ErroDesconhecido;
        }
        filiais := filiais + [Filial(id, nome, bairro)];
        AppendKeepsUniqueIds(loaded, Filial(id, nome, bairro));
        contents := Loaded(filiais);
        status := OperacaoRealizadaComSucesso;
    }
  }

  /**
   * A client of the store: on a file holding records without `id`, creating
   * the branch succeeds, creating it again is refused with the generic error
   * and leaves the file alone, and get_filial then reports the first values.
   */
  method CreateThenGet(initial: seq<Filial>, id: int, nome: string, bairro: string, outroNome: string)
    returns (first: int, second: int, reply: (int, Option<FilialInfo>), stored: seq<Filial>)
    requires !HasId(initial, id)
    ensures first == OperacaoRealizadaComSucesso
    ensures second == ErroDesconhecido
    ensures reply == (OperacaoRealizadaComSucesso, Some(FilialInfo(nome, bairro)))
    ensures stored == initial + [Filial(id, nome, bairro)]
  {
    var file := new FiliaisJson(Loaded(initial));
    first := file.AddFilial(id, nome, bairro);
    second := file.AddFilial(id, outroNome, bairro);
    reply := GetFilial(file.contents, id);
    AddThenGet(initial, id, nome, bairro);
    stored := file.contents.filiais;
  }

  // ---------------------------------------------------------------------
  // get_filial_proxima (filial.py:105-129)
  // ---------------------------------------------------------------------

  /** The hardcoded neighbourhood-to-branch table of filial.py:116-124. */
  const FilialMaisProxima: seq<(string, int)> := [
    ("Tijuca", 1),
    ("Ipanema", 2),
    ("Andarai", 1),
    ("Leblon", 2),
    ("Grajau", 1),
    ("Gavea", 2),
    ("Vila Isabel", 1)
  ]

  /** Position `i` holds the first table entry named `bairro`. */
  predicate IsFirstNamed(table: seq<(string, int)>, bairro: string, i: int) {
    && 0 <= i < |table|
    && table[i].0 == bairro
    && forall j :: 0 <= j < i ==> table[j].0 != bairro
  }

  /**
   * First-match lookup of `bairro` in a neighbourhood table: the branch id of
   * the first entry with that name, or the neighbourhood-not-found code.
   */
  function NearestIn(table: seq<(string, int)>, bairro: string): (r: (int, Option<int>))
    ensures r.0 == OperacaoRealizadaComSucesso || r == (BairroNaoEncontrado, None)
    ensures r.0 == OperacaoRealizadaComSucesso <==> exists i :: 0 <= i < |table| && table[i].0 == bairro
    ensures r.0 == OperacaoRealizadaComSucesso ==>
      exists i :: IsFirstNamed(table, bairro, i) && r.1 == Some(table[i].1)
  {
    if table == [] then (BairroNaoEncontrado, None)
    else if table[0].0 == bairro then
      assert IsFirstNamed(table, bairro, 0);
      (OperacaoRealizadaComSucesso, Some(table[0].1))
    else
      var r := NearestIn(table[1..], bairro);
      assert (exists i :: 0 <= i < |table| && table[i].0 == bairro) ==>
             (exists i :: 0 <= i < |table[1..]| && table[1..][i].0 == bairro) by {
        if exists i :: 0 <= i < |table| && table[i].0 == bairro {
          var i :| 0 <= i < |table| && table[i].0 == bairro;
          assert table[1..][i - 1].0 == bairro;
        }
      }
      assert r.0 == OperacaoRealizadaComSucesso ==>
             exists i :: IsFirstNamed(table, bairro, i) && r.1 == Some(table[i].1) by {
        if r.0 == OperacaoRealizadaComSucesso {
          var i :| IsFirstNamed(table[1..], bairro, i) && r.1 == Some(table[1..][i].1);
          assert IsFirstNamed(table, bairro, i + 1);
        }
      }
      r
  }

  /**
   * get_filial_proxima(bairro): the `for` loop with early return of
   * filial.py:125-129 over the hardcoded table.
   */
  method GetFilialProxima(bairro: string) returns (status: int, id: Option<int>)
    ensures (status, id) == NearestIn(FilialMaisProxima, bairro)
  {
    for i := 0 to |FilialMaisProxima|
      invariant NearestIn(FilialMaisProxima[i..], bairro) == NearestIn(FilialMaisProxima, bairro)
    {
      if FilialMaisProxima[i].0 == bairro {
        return OperacaoRealizadaComSucesso, Some(FilialMaisProxima[i].1);
      }
      assert FilialMaisProxima[i..][1..] == FilialMaisProxima[i + 1..];
    }
    return BairroNaoEncontrado, None;
  }

  // ---------------------------------------------------------------------
  // Properties
  // ---------------------------------------------------------------------

  /** Appending a record with a fresh id keeps the ids pairwise distinct. */
  lemma AppendKeepsUniqueIds(filiais: seq<Filial>, f: Filial)
    requires !HasId(filiais, f.id)
    ensures UniqueIds(filiais) ==> UniqueIds(filiais + [f])
  {
  }

  /** The first match in a concatenation is found in the left part if it has one. */
  lemma {:induction false} FirstWithIdAppend(a: seq<Filial>, b: seq<Filial>, id: int)
    ensures FirstWithId(a + b, id) == if HasId(a, id) then FirstWithId(a, id) else FirstWithId(b, id)
  {
    if a == [] {
      assert a + b == b;
    } else {
      assert (a + b)[1..] == a[1..] + b;
      FirstWithIdAppend(a[1..], b, id);
      if a[0].id != id {
        assert HasId(a[1..], id) <==> HasId(a, id) by {
          if HasId(a, id) {
            var i :| 0 <= i < |a| && a[i].id == id;
            assert a[1..][i - 1].id == id;
          }
        }
      }
    }
  }

  /** After appending a record with a fresh id, get_filial finds exactly that record. */
  lemma AddThenGet(filiais: seq<Filial>, id: int, nome: string, bairro: string)
    requires !HasId(filiais, id)
    ensures GetFilial(Loaded(filiais + [Filial(id, nome, bairro)]), id)
         == (OperacaoRealizadaComSucesso, Some(FilialInfo(nome, bairro)))
  {
    FirstWithIdAppend(filiais, [Filial(id, nome, bairro)], id);
  }

  /** Appending a record does not change what get_filial reports for any other id. */
  lemma AddKeepsOtherGets(filiais: seq<Filial>, f: Filial, other: int)
    requires other != f.id
    ensures GetFilial(Loaded(filiais + [f]), other) == GetFilial(Loaded(filiais), other)
  {
    FirstWithIdAppend(filiais, [f], other);
  }

  /** With unique ids, get_filial returns the one record that has the id. */
  lemma GetFindsStoredRecord(filiais: seq<Filial>, i: int)
    requires UniqueIds(filiais)
    requires 0 <= i < |filiais|
    ensures GetFilial(Loaded(filiais), filiais[i].id) == (OperacaoRealizadaComSucesso, Some(filiais[i].Info()))
  {
  }

  /** The listing of a concatenation is the concatenation of the listings. */
  lemma InfosAppend(a: seq<Filial>, b: seq<Filial>)
    ensures Infos(a + b) == Infos(a) + Infos(b)
  {
  }

  /** After appending a record, get_filiais lists the old records then the new one. */
  lemma AddThenList(filiais: seq<Filial>, f: Filial)
    ensures GetFiliais(Loaded(filiais + [f]))
         == (OperacaoRealizadaComSucesso, GetFiliais(Loaded(filiais)).1 + [FilialInfo(f.nome, f.bairro)])
  {
    InfosAppend(filiais, [f]);
    assert Infos([f]) == [f.Info()];
  }

  /** The examples of the hardcoded table. */
  lemma NearestExamples()
    ensures NearestIn(FilialMaisProxima, "Tijuca") == (OperacaoRealizadaComSucesso, Some(1))
    ensures NearestIn(FilialMaisProxima, "Ipanema") == (OperacaoRealizadaComSucesso, Some(2))
    ensures NearestIn(FilialMaisProxima, "Vila Isabel") == (OperacaoRealizadaComSucesso, Some(1))
    ensures NearestIn(FilialMaisProxima, "Copacabana") == (BairroNaoEncontrado, None)
  {
  }

  /** Every branch id get_filial_proxima can report is 1 or 2. */
  lemma NearestIsOneOrTwo(bairro: string)
    ensures NearestIn(FilialMaisProxima, bairro).1.Some? ==>
      NearestIn(FilialMaisProxima, bairro).1.value in {1, 2}
  {
  }

  /** The write-error code 32 is defined but no read operation returns it. */
  lemma NoReadReturnsWriteError(load: Load, id: int, bairro: string)
    ensures GetFilial(load, id).0 != ErroNaEscritaDoArquivo
    ensures GetFiliais(load).0 != ErroNaEscritaDoArquivo
    ensures NearestIn(FilialMaisProxima, bairro).0 != ErroNaEscritaDoArquivo
  {
  }
}
