/** Tools as the tool manager sees them (`source/service/tracking/cxToolManagerUsingIGSTK.cpp`):
    their types and priority, the position history kept per tool, and the
    ordered walk over a history's timestamps. */
module Tools {
  import opened Common

  /** The `ToolUsingIGSTK::TOOL_*` types a tool can have. */
  datatype ToolType = ManualType | UsProbeType | PointerType | ReferenceType

  /** `getPriority`: the manual type is checked first, so a tool that is also
      manual ranks as manual. */
  function Priority(types: set<ToolType>): (r: nat)
    ensures r <= 4
    ensures r == 2 <==> ManualType in types
  {
    if ManualType in types then 2
    else if UsProbeType in types then 4
    else if PointerType in types then 3
    else if ReferenceType in types then 1
    else 0
  }

  /** `toolTypeSort`: `a` goes before `b` when its priority is higher. */
  predicate SortsBefore(a: set<ToolType>, b: set<ToolType>)
  {
    Priority(b) < Priority(a)
  }

  /** For single-type tools: probe, pointer, manual, reference, untyped. A
      manual tool ranks 2 whatever other types it has. */
  lemma PriorityOrder(types: set<ToolType>)
    ensures SortsBefore({UsProbeType}, {PointerType}) && SortsBefore({PointerType}, {ManualType})
    ensures SortsBefore({ManualType}, {ReferenceType}) && SortsBefore({ReferenceType}, {})
    ensures Priority(types + {ManualType}) == 2
  {
  }

  /** `toolTypeSort` is a strict weak ordering, as `std::sort` needs. */
  lemma SortsBeforeIsStrictWeakOrder(a: set<ToolType>, b: set<ToolType>, c: set<ToolType>)
    ensures !SortsBefore(a, a)
    ensures SortsBefore(a, b) && SortsBefore(b, c) ==> SortsBefore(a, c)
    ensures !SortsBefore(a, b) && !SortsBefore(b, a) && !SortsBefore(b, c) && !SortsBefore(c, b)
      ==> !SortsBefore(a, c) && !SortsBefore(c, a)
  {
  }

  /** One record of the position history file: pose, timestamp and tool uid. */
  datatype Record = Record(pose: Transform, stamp: nat, toolUid: string)

  class Tool {
    const uid: string
    const types: set<ToolType>
    /** The tool a playback tool wraps; null for other tools. */
    const base: Tool?
    /** `getProbe()` is set and valid. */
    const hasProbe: bool
    /** `isValid()` of a tool built from the tracker. */
    const valid: bool
    var visible: bool
    var prMt: Transform
    var timestamp: nat
    /** `getPositionHistory()`: timestamp to pose. */
    var history: map<nat, Transform>
    /** How many playback tools deep the tool is wrapped (for proofs only). */
    ghost const depth: nat

    /** This tool and every tool it wraps have uid `u`. */
    ghost predicate AnswersTo(u: string)
      decreases depth
    {
      uid == u && (base != null ==> base.depth < depth && base.AnswersTo(u))
    }

    constructor(uid: string, types: set<ToolType>, hasProbe: bool, valid: bool)
      ensures this.uid == uid && this.types == types && base == null
      ensures this.hasProbe == hasProbe && this.valid == valid
      ensures !visible && prMt == Identity && timestamp == 0 && history == map[]
      ensures depth == 0 && AnswersTo(uid)
    {
      depth := 0;
      this.uid := uid;
      this.types := types;
      base := null;
      this.hasProbe := hasProbe;
      this.valid := valid;
      visible := false;
      prMt := Identity;
      timestamp := 0;
      history := map[];
    }

    /** A `PlaybackTool` wrapping `b`: it has its base's types and probe and
        moves with the playback clock. It is assumed to carry its base's uid;
        `PlaybackTool::getUid` is not part of this model. */
    constructor Wrap(b: Tool)
      ensures uid == b.uid && types == b.types && base == b
      ensures hasProbe == b.hasProbe && valid
      ensures !visible && prMt == Identity && timestamp == 0 && history == map[]
      ensures depth == b.depth + 1
      ensures b.AnswersTo(b.uid) ==> AnswersTo(b.uid)
    {
      depth := b.depth + 1;
      uid := b.uid;
      types := b.types;
      base := b;
      hasProbe := b.hasProbe;
      valid := true;
      visible := false;
      prMt := Identity;
      timestamp := 0;
      history := map[];
    }
  }

  // ---------------------------------------------------------------------------
  // Timestamps in order (the iteration order of a `TimedTransformMap`);
  // timestamps are milliseconds since the epoch, so never negative
  // ---------------------------------------------------------------------------

  ghost function MinOf(s: set<nat>): (m: nat)
    requires s != {}
    ensures m in s && forall x :: x in s ==> m <= x
  {
    var x :| x in s;
    if forall y :: y in s ==> x <= y then x
    else
      var y :| y in s && y < x;
      assert y in s - {x};
      var rest := MinOf(s - {x});
      assert forall z :: z in s ==> z == x || z in s - {x};
      if x < rest then x else rest
  }

  ghost function MaxOf(s: set<nat>): (m: nat)
    requires s != {}
    ensures m in s && forall x :: x in s ==> x <= m
  {
    var x :| x in s;
    if forall y :: y in s ==> y <= x then x
    else
      var y :| y in s && y > x;
      assert y in s - {x};
      var rest := MaxOf(s - {x});
      assert forall z :: z in s ==> z == x || z in s - {x};
      if x > rest then x else rest
  }

  predicate Increasing(r: seq<nat>)
  {
    forall i, j :: 0 <= i < j < |r| ==> r[i] < r[j]
  }

  /** The timestamps of a history in ascending order. */
  ghost function SortedInts(s: set<nat>): (r: seq<nat>)
    decreases |s|
  {
    if s == {} then [] else [MinOf(s)] + SortedInts(s - {MinOf(s)})
  }

  lemma {:induction false} SortedIntsSpec(s: set<nat>)
    ensures |SortedInts(s)| == |s|
    ensures forall x :: x in SortedInts(s) <==> x in s
    ensures Increasing(SortedInts(s))
    decreases |s|
  {
    if s != {} {
      var m := MinOf(s);
      var rest := SortedInts(s - {m});
      SortedIntsSpec(s - {m});
      forall x | x in rest
        ensures m < x
      {
        assert x in s - {m};
      }
      IncreasingCons(m, rest);
      assert SortedInts(s) == [m] + rest;
    }
  }

  lemma IncreasingCons(m: nat, rest: seq<nat>)
    requires Increasing(rest) && forall x :: x in rest ==> m < x
    ensures Increasing([m] + rest)
  {
    var r := [m] + rest;
    forall i, j | 0 <= i < j < |r|
      ensures r[i] < r[j]
    {
      assert r[j] == rest[j - 1] && rest[j - 1] in rest;
      if i > 0 {
        assert r[i] == rest[i - 1];
      }
    }
  }

  /** The smallest timestamp, found by a linear scan. */
  method LeastStamp(s: set<nat>) returns (m: nat)
    requires s != {}
    ensures m == MinOf(s)
  {
    var x :| x in s;
    m := x;
    var rest := s - {x};
    while rest != {}
      invariant rest <= s && m in s
      invariant forall y :: y in s && y !in rest ==> m <= y
      decreases |rest|
    {
      var y :| y in rest;
      if y < m {
        m := y;
      }
      rest := rest - {y};
    }
  }

  /** The largest timestamp, found by a linear scan. */
  method GreatestStamp(s: set<nat>) returns (m: nat)
    requires s != {}
    ensures m == MaxOf(s)
  {
    var x :| x in s;
    m := x;
    var rest := s - {x};
    while rest != {}
      invariant rest <= s && m in s
      invariant forall y :: y in s && y !in rest ==> y <= m
      decreases |rest|
    {
      var y :| y in rest;
      if y > m {
        m := y;
      }
      rest := rest - {y};
    }
  }

  /** The timestamps of `s` in ascending order. */
  method SortedStamps(s: set<nat>) returns (r: seq<nat>)
    ensures r == SortedInts(s)
  {
    r := [];
    var rest := s;
    while rest != {}
      invariant r + SortedInts(rest) == SortedInts(s)
      decreases |rest|
    {
      var m := LeastStamp(rest);
      r := r + [m];
      rest := rest - {m};
    }
  }

  lemma MinOfUnion(a: set<nat>, b: set<nat>)
    requires a != {} && b != {}
    ensures MinOf(a + b) == if MinOf(a) < MinOf(b) then MinOf(a) else MinOf(b)
  {
    var m := MinOf(a + b);
    assert m in a || m in b;
  }

  lemma MaxOfUnion(a: set<nat>, b: set<nat>)
    requires a != {} && b != {}
    ensures MaxOf(a + b) == if MaxOf(a) > MaxOf(b) then MaxOf(a) else MaxOf(b)
  {
    var m := MaxOf(a + b);
    assert m in a || m in b;
  }

  /** The start of the playback range: the earliest recorded timestamp, or
      `now` when that is earlier or nothing is recorded. */
  ghost function RangeStart(now: nat, u: set<nat>): (r: nat)
    ensures r <= now
    ensures u != {} ==> r <= MinOf(u) && (r == now || r in u)
  {
    if u == {} then now else if MinOf(u) < now then MinOf(u) else now
  }

  /** The end of the playback range: the latest recorded timestamp, or 0. */
  ghost function RangeEnd(u: set<nat>): (r: nat)
    ensures forall x :: x in u ==> x <= r
    ensures u == {} <==> r == 0 && 0 !in u
  {
    if u == {} then 0 else MaxOf(u)
  }

  /** Adding one history's timestamps to the range moves each end at most
      to that history's own extreme. */
  lemma RangeStep(now: nat, u: set<nat>, h: set<nat>)
    requires h != {}
    ensures RangeStart(now, u + h) == if MinOf(h) < RangeStart(now, u) then MinOf(h) else RangeStart(now, u)
    ensures RangeEnd(u + h) == if MaxOf(h) > RangeEnd(u) then MaxOf(h) else RangeEnd(u)
  {
    if u != {} {
      MinOfUnion(u, h);
      MaxOfUnion(u, h);
    } else {
      assert u + h == h;
    }
  }

  // ---------------------------------------------------------------------------
  // The report of unknown tools in a loaded history
  // ---------------------------------------------------------------------------

  /** `QStringList::removeDuplicates` (keeps each first occurrence) followed by
      `removeAll("")`. */
  function Reported(s: seq<string>, seen: set<string>): seq<string>
  {
    if s == [] then []
    else if s[0] in seen || s[0] == "" then Reported(s[1..], seen)
    else [s[0]] + Reported(s[1..], seen + {s[0]})
  }

  /** The report holds every non-empty uid once and nothing else. */
  lemma {:induction false} ReportedSpec(s: seq<string>, seen: set<string>)
    ensures forall x :: x in Reported(s, seen) <==> x in s && x != "" && x !in seen
    ensures forall i, j :: 0 <= i < j < |Reported(s, seen)| ==> Reported(s, seen)[i] != Reported(s, seen)[j]
  {
    if s != [] {
      var rest := s[1..];
      if s[0] in seen || s[0] == "" {
        ReportedSpec(rest, seen);
        forall x | x in s && x != "" && x !in seen
          ensures x in rest
        {
          var k :| 0 <= k < |s| && s[k] == x;
          assert k != 0;
          assert rest[k - 1] == x;
        }
      } else {
        ReportedSpec(rest, seen + {s[0]});
        var r := Reported(s, seen);
        forall x | x in s && x != "" && x !in seen
          ensures x in r
        {
          if x != s[0] {
            var k :| 0 <= k < |s| && s[k] == x;
            assert rest[k - 1] == x;
          }
        }
        forall i, j | 0 <= i < j < |r|
          ensures r[i] != r[j]
        {
          if i == 0 {
            assert r[j] in Reported(rest, seen + {s[0]});
          } else {
            assert r[i] == Reported(rest, seen + {s[0]})[i - 1];
            assert r[j] == Reported(rest, seen + {s[0]})[j - 1];
          }
        }
      }
    }
  }
}
