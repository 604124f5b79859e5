/** The content filter: it routes a sample to the connection its related id names, or,
    for a reader with a prescale factor, passes every k-th update. */
module CorrelationIdFilter {
  import opened Common
  import opened ConnectionId
  import opened Division
  import Prescale

  datatype ReaderData = ReaderData(id: Guid, counter: int, factor: Option<int>)

  // ----- Specification --------------------------------------------------------

  /** What `compile` stores; a malformed expression throws. */
  function Compiled(expression: string, parameters: seq<string>): Option<ReaderData> {
    match Parse(expression)
    case Parsed(g) => Some(ReaderData(g, 0, Prescale.FactorOf(parameters)))
    case _ => None
  }

  function Passes(d: ReaderData, related: Guid): bool
    requires d.factor.Some? ==> d.factor.value > 0
  {
    if d.factor.Some? then d.counter % d.factor.value == 0 else d.id == related
  }

  /** The update counter advances with every prescaled evaluation. */
  function Evaluated(d: ReaderData): ReaderData {
    if d.factor.Some? && d.counter >= 0 then d.(counter := d.counter + 1) else d
  }

  // ----- The filter object ----------------------------------------------------

  class CompiledReader {
    const id: Guid
    var counter: int
    const factor: Option<int>

    constructor (d: ReaderData)
      ensures Data() == d
    {
      id, counter, factor := d.id, d.counter, d.factor;
    }

    function Data(): ReaderData
      reads this
    {
      ReaderData(id, counter, factor)
    }
  }

  class Filter {
    /** The list of compiled readers, newest first. */
    var compiledReaders: seq<CompiledReader>

    ghost predicate Valid()
      reads this, compiledReaders
    {
      && Distinct(compiledReaders)
      && (forall r | r in compiledReaders :: Usable(r.Data()))
    }

    ghost function Table(): map<CompiledReader, ReaderData>
      reads this, compiledReaders
    {
      map r | r in compiledReaders :: r.Data()
    }

    constructor ()
      ensures Valid() && compiledReaders == []
    {
      compiledReaders := [];
    }

    method Compile(expression: string, parameters: seq<string>) returns (reader: CompiledReader?)
      requires Valid()
      modifies this
      ensures Valid()
      ensures reader == null <==> Compiled(expression, parameters).None?
      ensures reader == null ==> compiledReaders == old(compiledReaders)
      ensures reader != null ==> fresh(reader) && compiledReaders == [reader] + old(compiledReaders)
      ensures reader != null ==> Table() == old(Table())[reader := Compiled(expression, parameters).value]
    {
      var parsed := ConnectionId.FromString(expression);
      if !parsed.Parsed? { return null; }
      reader := new CompiledReader(ReaderData(parsed.id, 0, Prescale.FactorOf(parameters)));
      compiledReaders := [reader] + compiledReaders;
    }

    method Evaluate(reader: CompiledReader, related: Guid) returns (pass: bool)
      requires Valid() && reader in compiledReaders
      modifies reader
      ensures Valid() && compiledReaders == old(compiledReaders)
      ensures pass == Passes(old(reader.Data()), related)
      ensures Table() == old(Table())[reader := Evaluated(old(reader.Data()))]
    {
      if reader.factor.Some? {
        var current := reader.counter;
        if reader.counter >= 0 { reader.counter := reader.counter + 1; }
        pass := current % reader.factor.value == 0;
      } else {
        pass := reader.id == related;
      }
    }

    method Finalize(reader: CompiledReader)
      requires Valid() && reader in compiledReaders
      modifies this
      ensures Valid() && Table() == old(Table()) - {reader}
    {
      var i :| 0 <= i < |compiledReaders| && compiledReaders[i] == reader;
      RemoveAtMembers(compiledReaders, i);
      ghost var table := Table();
      compiledReaders := RemoveAt(compiledReaders, i);
      assert Table().Keys == table.Keys - {reader};
    }
  }

  // ----- Event isolation ------------------------------------------------------

  ghost predicate Usable(d: ReaderData) {
    d.counter >= 0 && (d.factor.Some? ==> d.factor.value > 0)
  }

  /** Through print, filter expression, parse and compare: the reader of connection `a`
      passes a sample related to `b` if and only if `b` is `a`, and stays as it was. */
  lemma Isolation(a: Guid, b: Guid)
    ensures var d := Compiled(PrintBytes(a), []);
      d.Some? && (Passes(d.value, b) <==> a == b) && Evaluated(d.value) == d.value
  {
    PrintParse(a);
  }

  /** The content filter that the reader of connection `g` is created with. */
  predicate Accepts(g: Guid, related: Guid) {
    var d := Compiled(PrintBytes(g), []);
    d.Some? && Passes(d.value, related)
  }

  // ----- Runs over many readers -----------------------------------------------

  datatype Op<K> =
    | CompileOp(reader: K, expression: string, parameters: seq<string>)
    | EvaluateOp(reader: K, related: Guid)
    | FinalizeOp(reader: K)

  predicate Enabled<K>(s: map<K, ReaderData>, op: Op<K>) {
    match op
    case CompileOp(k, expression, parameters) => k !in s && Compiled(expression, parameters).Some?
    case EvaluateOp(k, _) => k in s && (s[k].factor.Some? ==> s[k].factor.value > 0)
    case FinalizeOp(k) => k in s
  }

  function Next<K>(s: map<K, ReaderData>, op: Op<K>): map<K, ReaderData>
    requires Enabled(s, op)
  {
    match op
    case CompileOp(k, expression, parameters) => s[k := Compiled(expression, parameters).value]
    case EvaluateOp(k, _) => s[k := Evaluated(s[k])]
    case FinalizeOp(k) => s - {k}
  }

  predicate Legal<K>(s: map<K, ReaderData>, ops: seq<Op<K>>)
    decreases |ops|
  {
    ops == [] || (Enabled(s, ops[0]) && Legal(Next(s, ops[0]), ops[1..]))
  }

  /** The verdicts of the evaluations made for reader `k` until it is finalized. */
  function Verdicts<K>(s: map<K, ReaderData>, ops: seq<Op<K>>, k: K): seq<bool>
    requires Legal(s, ops)
    decreases |ops|
  {
    if ops == [] || ops[0] == FinalizeOp(k) then []
    else
      (if ops[0].EvaluateOp? && ops[0].reader == k then [Passes(s[k], ops[0].related)] else []) +
      Verdicts(Next(s, ops[0]), ops[1..], k)
  }

  /** Whatever happens to other readers in between, evaluation number j of a reader with
      factor f passes exactly if its counter value is a multiple of f. */
  lemma {:induction false} PrescaleRun<K>(s: map<K, ReaderData>, ops: seq<Op<K>>, k: K, j: nat)
    requires k in s && Usable(s[k]) && s[k].factor.Some? && Legal(s, ops)
    requires j < |Verdicts(s, ops, k)|
    ensures Verdicts(s, ops, k)[j] <==> (s[k].counter + j) % s[k].factor.value == 0
    decreases |ops|
  {
    var op := ops[0];
    if op.EvaluateOp? && op.reader == k {
      assert s[k] == Next(s, op)[k].(counter := s[k].counter);
      if j > 0 { PrescaleRun(Next(s, op), ops[1..], k, j - 1); }
    } else {
      PrescaleRun(Next(s, op), ops[1..], k, j);
    }
  }

  function Accepted(v: seq<bool>): nat {
    if v == [] then 0 else Accepted(v[..|v| - 1]) + if v[|v| - 1] then 1 else 0
  }

  lemma RoundedUpStep(n: nat, f: int)
    requires f > 0
    ensures (n + f) / f == (n + f - 1) / f + if n % f == 0 then 1 else 0
  {
    var q, r := n / f, n % f;
    assert n == f * q + r;
    QuotientIs(n + f, f, q + 1, r);
    if r == 0 {
      QuotientIs(n + f - 1, f, q, f - 1);
    } else {
      QuotientIs(n + f - 1, f, q + 1, r - 1);
    }
  }

  /** If exactly the multiples of f pass, the number that pass is n / f rounded up. */
  lemma {:induction false} MultiplesCount(v: seq<bool>, f: int)
    requires f > 0 && forall j | 0 <= j < |v| :: v[j] <==> j % f == 0
    ensures Accepted(v) == (|v| + f - 1) / f
  {
    if v == [] {
      assert (f - 1) / f == 0 by { QuotientIs(f - 1, f, 0, f - 1); }
    } else {
      var n := |v| - 1;
      MultiplesCount(v[..n], f);
      RoundedUpStep(n, f);
    }
  }

  /** End to end: a subscription with factor f compiles to a reader that accepts its
      evaluations 0, f, 2f, ... and so n / f rounded up of n, for every f that fits. */
  lemma PrescaleEndToEnd<K>(s: map<K, ReaderData>, k: K, g: Guid, f: nat, ops: seq<Op<K>>)
    requires 1 <= f <= Prescale.INT_MAX
    requires Legal(s[k := ReaderData(g, 0, Some(f))], ops)
    ensures Compiled(PrintBytes(g), [Prescale.Print(f)]) == Some(ReaderData(g, 0, Some(f)))
    ensures var v := Verdicts(s[k := ReaderData(g, 0, Some(f))], ops, k);
      && (forall j | 0 <= j < |v| :: v[j] <==> j % f == 0)
      && Accepted(v) == (|v| + f - 1) / f
  {
    PrintParse(g);
    Prescale.FactorIsFaithfulIff(f);
    var t := s[k := ReaderData(g, 0, Some(f))];
    var v := Verdicts(t, ops, k);
    forall j | 0 <= j < |v| ensures v[j] <==> j % f == 0 {
      PrescaleRun(t, ops, k, j);
    }
    MultiplesCount(v, f);
  }
}
