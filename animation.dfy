/** The animator's three boolean parameters and the edge-triggered policy by
    which both the player and the pet push their movement flags into it. */
module Animation {

  datatype Flag = Walking | Running | Dancing

  /** One `SetBool` call on the animator. */
  datatype Write = Write(flag: Flag, value: bool)

  /** The values held by the animator's three parameters. */
  datatype Flags = Flags(walking: bool, running: bool, dancing: bool)
  {
    function Get(f: Flag): bool {
      match f
      case Walking => walking
      case Running => running
      case Dancing => dancing
    }

    function Set(f: Flag, v: bool): (r: Flags)
      ensures r.Get(f) == v
      ensures forall g :: g != f ==> r.Get(g) == Get(g)
    {
      match f
      case Walking => this.(walking := v)
      case Running => this.(running := v)
      case Dancing => this.(dancing := v)
    }
  }

  /** The parameter values after the writes `w` are applied in order to `s`. */
  function Replay(s: Flags, w: seq<Write>): Flags
    decreases |w|
  {
    if w == [] then s else Replay(s.Set(w[0].flag, w[0].value), w[1..])
  }

  /** Writing `a` and then `b` is writing `a + b`. */
  lemma {:induction false} ReplayAppend(s: Flags, a: seq<Write>, b: seq<Write>)
    ensures Replay(s, a + b) == Replay(Replay(s, a), b)
    decreases |a|
  {
    if a == [] {
      assert a + b == b;
    } else {
      assert (a + b)[0] == a[0] && (a + b)[1..] == a[1..] + b;
      ReplayAppend(s.Set(a[0].flag, a[0].value), a[1..], b);
    }
  }

  /** A parameter that no write in `w` names keeps its value. */
  lemma {:induction false} ReplayUntouched(s: Flags, w: seq<Write>, f: Flag)
    requires forall i :: 0 <= i < |w| ==> w[i].flag != f
    ensures Replay(s, w).Get(f) == s.Get(f)
    decreases |w|
  {
    if w != [] {
      ReplayUntouched(s.Set(w[0].flag, w[0].value), w[1..], f);
    }
  }

  /** The last write to a parameter decides its value. */
  lemma {:induction false} ReplayLastWriteWins(s: Flags, w: seq<Write>, i: nat)
    requires i < |w|
    requires forall j :: i < j < |w| ==> w[j].flag != w[i].flag
    ensures Replay(s, w).Get(w[i].flag) == w[i].value
    decreases |w|
  {
    if i == 0 {
      ReplayUntouched(s.Set(w[0].flag, w[0].value), w[1..], w[0].flag);
    } else {
      ReplayLastWriteWins(s.Set(w[0].flag, w[0].value), w[1..], i - 1);
    }
  }

  /** The writes one animation pass makes, given the stored values `s` and the
      driving flags: walk and run are written only when they differ from the
      stored value; dance is written true only when dancing while still and not
      yet stored, and written false on every pass while moving. */
  function SyncWrites(s: Flags, moving: bool, running: bool, dancing: bool): (w: seq<Write>)
    ensures |w| <= 3
    ensures Write(Walking, moving) in w <==> s.walking != moving
    ensures Write(Walking, !moving) !in w
    ensures Write(Running, moving && running) in w <==> s.running != (moving && running)
    ensures Write(Running, !(moving && running)) !in w
    ensures Write(Dancing, true) in w <==> dancing && !moving && !s.dancing
    ensures Write(Dancing, false) in w <==> moving
  {
    WalkWrites(s, moving) + RunWrites(s, moving, running) + DanceWrites(s, moving, dancing)
  }

  function WalkWrites(s: Flags, moving: bool): seq<Write> {
    if moving && !s.walking then [Write(Walking, true)]
    else if !moving && s.walking then [Write(Walking, false)]
    else []
  }

  function RunWrites(s: Flags, moving: bool, running: bool): seq<Write> {
    if (moving && running) && !s.running then [Write(Running, true)]
    else if (!moving || !running) && s.running then [Write(Running, false)]
    else []
  }

  function DanceWrites(s: Flags, moving: bool, dancing: bool): seq<Write> {
    if dancing && !moving && !s.dancing then [Write(Dancing, true)]
    else if moving then [Write(Dancing, false)]
    else []
  }

  /** The parameter values an animation pass leaves behind. */
  function Synced(s: Flags, moving: bool, running: bool, dancing: bool): (t: Flags)
    ensures t.walking == moving
    ensures t.running == (moving && running)
    ensures t.running ==> t.walking
    ensures t.dancing ==> !t.walking && !t.running
    ensures !moving && dancing ==> t.dancing
    ensures !moving && !dancing ==> t.dancing == s.dancing
  {
    Flags(moving, moving && running, !moving && (dancing || s.dancing))
  }

  /** Applying the writes of a pass yields exactly the values `Synced` describes. */
  lemma SyncWritesReachSynced(s: Flags, moving: bool, running: bool, dancing: bool)
    ensures Replay(s, SyncWrites(s, moving, running, dancing)) == Synced(s, moving, running, dancing)
  {
    var a, b, c := WalkWrites(s, moving), RunWrites(s, moving, running), DanceWrites(s, moving, dancing);
    ReplayAppend(s, a + b, c);
    ReplayAppend(s, a, b);
    var s1 := Replay(s, a);
    var s2 := Replay(s1, b);
    assert s1 == s.(walking := moving);
    assert s2 == s1.(running := moving && running);
  }

  /** Dance is the only parameter a pass may write with the value it already holds. */
  lemma OnlyDanceRewritten(s: Flags, moving: bool, running: bool, dancing: bool, i: nat)
    requires i < |SyncWrites(s, moving, running, dancing)|
    requires SyncWrites(s, moving, running, dancing)[i].value == s.Get(SyncWrites(s, moving, running, dancing)[i].flag)
    ensures SyncWrites(s, moving, running, dancing)[i] == Write(Dancing, false)
    ensures moving && !s.dancing
  {
  }

  /** The animator component: three stored parameters and, for the model, the
      log of every `SetBool` call made on it. */
  class Animator {
    var walking: bool
    var running: bool
    var dancing: bool
    var writes: seq<Write>

    constructor ()
      ensures Stored() == Flags(false, false, false) && writes == []
    {
      walking, running, dancing := false, false, false;
      writes := [];
    }

    function Stored(): Flags
      reads this
    {
      Flags(walking, running, dancing)
    }

    function GetBool(f: Flag): bool
      reads this
    {
      Stored().Get(f)
    }

    method SetBool(f: Flag, v: bool)
      modifies this
      ensures walking == (if f == Walking then v else old(walking))
      ensures running == (if f == Running then v else old(running))
      ensures dancing == (if f == Dancing then v else old(dancing))
      ensures writes == old(writes) + [Write(f, v)]
    {
      match f {
        case Walking => walking := v;
        case Running => running := v;
        case Dancing => dancing := v;
      }
      writes := writes + [Write(f, v)];
    }
  }

  /** One animation pass: read the three stored values, then set walk, run and
      dance by the edge-triggered policy. */
  method Sync(a: Animator, moving: bool, running: bool, dancing: bool)
    modifies a
    ensures a.writes == old(a.writes) + SyncWrites(old(a.Stored()), moving, running, dancing)
    ensures a.Stored() == Synced(old(a.Stored()), moving, running, dancing)
  {
    ghost var s, log := a.Stored(), a.writes;
    ghost var w, r, d := WalkWrites(s, moving), RunWrites(s, moving, running), DanceWrites(s, moving, dancing);
    var isWalkingAnimated := a.GetBool(Walking);
    var isRunningAnimated := a.GetBool(Running);
    var isDancingAnimated := a.GetBool(Dancing);

    if moving && !isWalkingAnimated {
      a.SetBool(Walking, true);
    } else if !moving && isWalkingAnimated {
      a.SetBool(Walking, false);
    }
    assert a.writes == log + w;
    ghost var s1 := a.Stored();
    assert s1 == s.(walking := moving);

    if (moving && running) && !isRunningAnimated {
      a.SetBool(Running, true);
    } else if (!moving || !running) && isRunningAnimated {
      a.SetBool(Running, false);
    }
    assert a.writes == log + w + r;
    ghost var s2 := a.Stored();
    assert s2 == s1.(running := moving && running);

    if dancing && !moving && !isDancingAnimated {
      a.SetBool(Dancing, true);
    } else if moving {
      a.SetBool(Dancing, false);
    }
    assert a.Stored() == s2.(dancing := !moving && (dancing || s.dancing));
    assert a.writes == log + w + r + d == log + (w + r + d);
  }
}
