/**
 * transform: captured bindings grouped by qualifier become one ADD
 * change-set per qualifier. The result is a hash map, so it is modelled as a
 * Dafny map; the input multimap is a map from each qualifier to the
 * collection of captured bindings it holds, in the collection's order.
 */
module Transform {
  import opened Wrappers
  import opened KbaModel

  /** A parameterized command: its id and its parameter map, which may be null. */
  datatype Command = Command(id: string, parameterMap: Option<ParameterMap>)

  /** A captured binding: the formatted trigger sequence and its command, which may be null. */
  datatype CapturedBinding = CapturedBinding(triggerSequence: string, command: Option<Command>)

  /** The qualifier-to-bindings multimap transform reads. */
  type Captured = map<Qualifier, seq<CapturedBinding>>

  /** The UnsupportedOperationException thrown for a binding without a command. */
  datatype TransformError = UnsupportedOperation

  /** paramMap: a null parameter map is the empty map. */
  function ParamMap(cmd: Command): (r: ParameterMap)
    ensures cmd.parameterMap.None? ==> r == []
    ensures cmd.parameterMap.Some? ==> r == cmd.parameterMap.value
  {
    match cmd.parameterMap
    case None => []
    case Some(m) => m
  }

  /** The per-binding function: a binding without a command is a removal, which fails. */
  function ToKbaBinding(b: CapturedBinding): (r: Result<KbaBinding, TransformError>)
    ensures r.Err? <==> b.command.None?
    ensures r.Ok? ==> r.value == KbaBinding(b.triggerSequence, b.command.value.id, ParamMap(b.command.value))
  {
    match b.command
    case None => Err(UnsupportedOperation)
    case Some(cmd) => Ok(KbaBinding(b.triggerSequence, cmd.id, ParamMap(cmd)))
  }

  /** The per-binding function over a whole collection; the first failure wins. */
  function ToKbaBindings(bs: seq<CapturedBinding>): Result<seq<KbaBinding>, TransformError> {
    if bs == [] then Ok([])
    else match ToKbaBinding(bs[0])
      case Err(e) => Err(e)
      case Ok(k) =>
        match ToKbaBindings(bs[1..])
        case Err(e) => Err(e)
        case Ok(ks) => Ok([k] + ks)
  }

  /** Every binding of the collection carries a command. */
  predicate AllHaveCommands(bs: seq<CapturedBinding>) {
    forall i :: 0 <= i < |bs| ==> bs[i].command.Some?
  }

  /** The change-set for q: its scheme, platform and context, action ADD, and the bindings. */
  function ChangeSetOf(q: Qualifier, ks: seq<KbaBinding>): ChangeSet {
    ChangeSet(q.scheme, q.platform, q.context, Add, ks)
  }

  /** What transform returns: the error when any binding fails, the change-set map otherwise. */
  function Transformed(orig: Captured): Result<map<Qualifier, ChangeSet>, TransformError> {
    if exists q :: q in orig && ToKbaBindings(orig[q]).Err? then Err(UnsupportedOperation)
    else Ok(map q | q in orig :: ChangeSetOf(q, ToKbaBindings(orig[q]).value))
  }

  /** transform: one put per key of the multimap. */
  method TransformBindings(orig: Captured) returns (r: Result<map<Qualifier, ChangeSet>, TransformError>)
    ensures r == Transformed(orig)
  {
    var result: map<Qualifier, ChangeSet> := map[];
    var keys := orig.Keys;
    while keys != {}
      invariant keys <= orig.Keys
      invariant result.Keys == orig.Keys - keys
      invariant forall q :: q in result ==>
        ToKbaBindings(orig[q]).Ok? && result[q] == ChangeSetOf(q, ToKbaBindings(orig[q]).value)
      decreases |keys|
    {
      var q :| q in keys;
      var transformed := ToKbaBindings(orig[q]);
      if transformed.Err? {
        return Err(UnsupportedOperation);
      }
      result := result[q := ChangeSetOf(q, transformed.value)];
      keys := keys - {q};
    }
    assert result == map q | q in orig :: ChangeSetOf(q, ToKbaBindings(orig[q]).value);
    return Ok(result);
  }

  /** The collection transforms iff every binding has a command; then count and order are kept. */
  lemma {:induction false} ToKbaBindingsSpec(bs: seq<CapturedBinding>)
    ensures ToKbaBindings(bs).Ok? <==> AllHaveCommands(bs)
    ensures ToKbaBindings(bs).Ok? ==>
      |ToKbaBindings(bs).value| == |bs| &&
      forall i :: 0 <= i < |bs| ==> Ok(ToKbaBindings(bs).value[i]) == ToKbaBinding(bs[i])
  {
    if bs != [] {
      ToKbaBindingsSpec(bs[1..]);
      if ToKbaBinding(bs[0]).Ok? && ToKbaBindings(bs[1..]).Ok? {
        var ks := ToKbaBindings(bs).value;
        forall i | 0 <= i < |bs|
          ensures Ok(ks[i]) == ToKbaBinding(bs[i])
        {
          if i > 0 {
            assert ks[i] == ToKbaBindings(bs[1..]).value[i - 1];
            assert bs[i] == bs[1..][i - 1];
          }
        }
      }
      if !AllHaveCommands(bs) && bs[0].command.Some? {
        var i :| 0 <= i < |bs| && bs[i].command.None?;
        assert bs[1..][i - 1] == bs[i];
      }
    }
  }

  /** transform fails exactly when some captured binding has no command. */
  lemma TransformFailsIff(orig: Captured)
    ensures Transformed(orig).Err? <==> exists q :: q in orig && !AllHaveCommands(orig[q])
  {
    forall q | q in orig
      ensures ToKbaBindings(orig[q]).Err? <==> !AllHaveCommands(orig[q])
    {
      ToKbaBindingsSpec(orig[q]);
    }
  }

  /**
   * On success the key set is the input's, every change-set copies its
   * qualifier's fields with action ADD, and its bindings are the captured
   * ones, as many and in the same order, each with its command id, trigger
   * sequence and parameters (none when the parameter map is null).
   */
  lemma TransformedChangeSets(orig: Captured, q: Qualifier)
    requires Transformed(orig).Ok? && q in orig
    ensures q in Transformed(orig).value
    ensures var cs := Transformed(orig).value[q];
      cs.scheme == q.scheme && cs.platform == q.platform && cs.context == q.context && cs.action == Add &&
      |cs.bindings| == |orig[q]| &&
      forall i :: 0 <= i < |orig[q]| ==>
        orig[q][i].command.Some? &&
        cs.bindings[i].keySequence == orig[q][i].triggerSequence &&
        cs.bindings[i].cid == orig[q][i].command.value.id &&
        cs.bindings[i].parameters == orig[q][i].command.value.parameterMap.GetOr([])
  {
    ToKbaBindingsSpec(orig[q]);
    var cs := Transformed(orig).value[q];
    forall i | 0 <= i < |orig[q]|
      ensures orig[q][i].command.Some?
      ensures cs.bindings[i] == KbaBinding(orig[q][i].triggerSequence, orig[q][i].command.value.id,
        orig[q][i].command.value.parameterMap.GetOr([]))
    {
      assert Ok(cs.bindings[i]) == ToKbaBinding(orig[q][i]);
    }
  }

  /** On success the result has exactly the input's key set. */
  lemma TransformedKeys(orig: Captured)
    requires Transformed(orig).Ok?
    ensures Transformed(orig).value.Keys == orig.Keys
  {
  }
}
