/** The capability retry around the island packer: four keyword sets, from
    the richest signature down to the most basic, tried in order until one
    is accepted. The packer itself is a parameter giving the outcome of a
    call with each keyword set. */
module PackRetry {
  import opened Common

  /** The keyword arguments of one call; an absent keyword is None. */
  datatype PackArgs = PackArgs(
    rotate: bool,
    margin: real,
    shapeMethod: Option<string>,
    marginMethod: Option<string>,
    udimSource: Option<string>,
    scale: Option<bool>)

  /** How a call ends: it returns, it raises `TypeError` (a keyword this
      version does not know), or it raises anything else. */
  datatype PackOutcome = Packed | UnsupportedArgs | Failed

  /** The four keyword sets, richest first. */
  function ArgSets(margin: real): (r: seq<PackArgs>)
    ensures |r| == 4
    ensures forall i :: 0 <= i < 4 ==> !r[i].rotate && r[i].margin == margin
  {
    [ PackArgs(false, margin, Some("CONCAVE"), Some("SCALED"), Some("CLOSEST_UDIM"), Some(true)),
      PackArgs(false, margin, Some("CONCAVE"), Some("SCALED"), None, Some(true)),
      PackArgs(false, margin, Some("CONCAVE"), Some("SCALED"), None, None),
      PackArgs(false, margin, None, None, None, None) ]
  }

  /** `a` passes a subset of the keywords `b` passes, with the same values. */
  predicate FewerKeywords(a: PackArgs, b: PackArgs) {
    && a.rotate == b.rotate && a.margin == b.margin
    && (a.shapeMethod.Some? ==> a.shapeMethod == b.shapeMethod)
    && (a.marginMethod.Some? ==> a.marginMethod == b.marginMethod)
    && (a.udimSource.Some? ==> a.udimSource == b.udimSource)
    && (a.scale.Some? ==> a.scale == b.scale)
  }

  /** Every keyword set drops at least one keyword of the one before it and
      adds none, so no set is tried twice. */
  lemma ArgSetsDescend(margin: real)
    ensures forall i, j :: 0 <= i < j < 4 ==>
      FewerKeywords(ArgSets(margin)[j], ArgSets(margin)[i]) && ArgSets(margin)[i] != ArgSets(margin)[j]
  {
  }

  /** A call with `args` is followed by a call with the next set exactly
      when it raised `TypeError`. */
  predicate MovesOn(op: PackArgs -> PackOutcome, args: PackArgs) {
    op(args) == UnsupportedArgs
  }

  /** The retry loop: `tried` lists the keyword sets passed to the packer,
      in order; `called` reports that one call returned. */
  method PackIslandsWithRetry(margin: real, op: PackArgs -> PackOutcome) returns (called: bool, tried: seq<PackArgs>)
    ensures 1 <= |tried| <= 4 && tried == ArgSets(margin)[..|tried|]
    ensures forall i :: 0 <= i < |tried| - 1 ==> MovesOn(op, tried[i])
    ensures called <==> op(tried[|tried| - 1]) == Packed
    ensures |tried| < 4 ==> !MovesOn(op, tried[|tried| - 1])
    ensures called <==> exists i :: (0 <= i < 4 && op(ArgSets(margin)[i]) == Packed
      && forall j :: 0 <= j < i ==> MovesOn(op, ArgSets(margin)[j]))
  {
    var sets := ArgSets(margin);
    called := false;
    tried := [];
    var i := 0;
    while i < |sets|
      invariant 0 <= i <= 4
      invariant tried == sets[..i]
      invariant forall j :: 0 <= j < i ==> MovesOn(op, sets[j])
      invariant !called
    {
      var args := sets[i];
      tried := tried + [args];
      var outcome := op(args);
      if outcome == Packed {
        called := true;
        break;
      } else if outcome == UnsupportedArgs {
        i := i + 1;
        continue;
      } else {
        break;
      }
    }
  }
}
