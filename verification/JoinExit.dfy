// A parent's join and its child's exit (src/thread_lib/include/determ.h: join,
// deregisterThread), step by step between the statements that other threads can
// see. A parent may be woken at any time: by its own child, by the broadcast of
// some other child, or for no reason.
module JoinExit {
  datatype Status = Ready | Joining | OthersNeedToWait | Exit

  // Where a thread stands; the thread that is joined is c.
  //  Idle       in neither operation       Busy     in some other locked section
  //  JLock      join, token held           JTest    mutex held, before the test
  //  JLoop      before the loop's test; `halted` if it left the active list,
  //             `waited` if it has been asleep
  //  JPut       status set, before the token is let go
  //  JSleep     before the wait            JAsleep  in the wait, mutex let go
  //  JActivate  loop left, still halted    JReady   before the status is set
  //  JUnlock    before the mutex is let go JToken   waiting for the token
  //  XLock      exit, token held           XMark    before its own status is set
  //  XCheck     before the parent's status is looked at
  //  XLeave     the parent told, before the mutex is let go
  //  XSpin      waiting for the parent     XRelock  before the mutex is taken back
  //  XHalt, XPut, XUnlock                  the rest; `told` if it told its parent
  //  Gone       exited
  datatype Pc =
    | Idle | Busy
    | JLock(c: int) | JTest(c: int) | JLoop(c: int, halted: bool, waited: bool)
    | JPut(c: int) | JSleep(c: int) | JAsleep(c: int)
    | JActivate(c: int, waited: bool) | JReady(c: int, halted: bool, waited: bool)
    | JUnlock(c: int, waited: bool) | JToken(c: int)
    | XLock | XMark | XCheck | XLeave | XSpin | XRelock
    | XHalt(told: bool) | XPut(told: bool) | XUnlock(told: bool) | Gone

  const FREE := -1

  datatype Sys = Sys(
    parent: seq<int>,
    pc: seq<Pc>,
    status: seq<Status>,
    joinee: seq<int>,
    active: set<int>,
    woken: set<int>,
    token: int,
    mutex: int)

  // Run(t) is the next statement of t; Wake(t) ends the wait of t.
  datatype Step = Take(t: int) | Release(t: int) | Section(t: int) | CallJoin(t: int, c: int) | CallExit(t: int)
                | Wake(t: int) | Run(t: int)

  predicate Fits(s: Sys) {
    && |s.parent| == |s.pc| == |s.status| == |s.joinee|
    && -1 <= s.token < |s.pc| && -1 <= s.mutex < |s.pc|
    && (forall t :: 0 <= t < |s.pc| ==> 0 <= s.parent[t] < |s.pc|)
  }

  predicate NeedsMutex(p: Pc) {
    p.JLock? || p.XLock? || p.XRelock?
  }

  // Only the parent joins a thread.
  predicate Enabled(s: Sys, x: Step) {
    Fits(s) && 0 <= x.t < |s.pc| &&
    match x
    case Take(t) => s.token == FREE && t in s.active && s.pc[t].Idle?
    case Release(t) => s.token == t && s.pc[t].Idle?
    case Section(t) => s.mutex == FREE && s.pc[t].Idle?
    case CallJoin(t, c) => s.token == t && s.pc[t].Idle? && 0 <= c < |s.pc| && c != t && s.parent[c] == t
    case CallExit(t) => s.token == t && s.pc[t].Idle? && s.parent[t] != t
    case Wake(t) => s.pc[t].JAsleep? && s.mutex == FREE
    case Run(t) =>
      match s.pc[t]
      case Idle => false
      case Gone => false
      case JAsleep(_) => false
      case JToken(_) => s.token == FREE && t in s.active
      case XSpin => s.status[s.parent[t]] != OthersNeedToWait
      case p => NeedsMutex(p) ==> s.mutex == FREE
  }

  function Go(s: Sys, t: int, p: Pc): Sys
    requires 0 <= t < |s.pc|
  {
    s.(pc := s.pc[t := p])
  }

  function WithStatus(s: Sys, t: int, st: Status): Sys
    requires 0 <= t < |s.status|
  {
    s.(status := s.status[t := st])
  }

  function Asleep(s: Sys): set<int> {
    set u | 0 <= u < |s.pc| && s.pc[u].JAsleep?
  }

  predicate InJoin(p: Pc) {
    p.JLock? || p.JTest? || p.JLoop? || p.JPut? || p.JSleep? || p.JAsleep? || p.JActivate? || p.JReady? ||
    p.JUnlock? || p.JToken?
  }

  // The next statement of join.
  function JoinRun(s: Sys, t: int): Sys
    requires Fits(s) && 0 <= t < |s.pc|
  {
    match s.pc[t]
    case JLock(c) => Go(s.(mutex := t), t, JTest(c))
    case JTest(c) =>
      if 0 <= c < |s.status| && s.status[c] != Exit then
        Go(WithStatus(s.(active := s.active - {t}, joinee := s.joinee[t := c]), t, Joining), t, JLoop(c, true, false))
      else Go(s, t, JLoop(c, false, false))
    case JLoop(c, halted, waited) =>
      if 0 <= c < |s.status| && s.status[c] != Exit then Go(WithStatus(s, t, Joining), t, JPut(c))
      else if halted then Go(s, t, JActivate(c, waited))
      else Go(s, t, JReady(c, halted, waited))
    case JPut(c) => Go(s.(token := if s.token == t then FREE else s.token), t, JSleep(c))
    case JSleep(c) => Go(s.(mutex := FREE), t, JAsleep(c))
    case JActivate(c, waited) => Go(s.(active := s.active + {t}), t, JReady(c, true, waited))
    case JReady(c, _, waited) => Go(WithStatus(s, t, Ready), t, JUnlock(c, waited))
    case JUnlock(c, waited) => Go(s.(mutex := FREE), t, if waited then JToken(c) else Idle)
    case JToken(c) => Go(s.(token := t), t, Idle)
    case _ => s
  }

  // The next statement of deregisterThread.
  function ExitRun(s: Sys, t: int): Sys
    requires Fits(s) && 0 <= t < |s.pc|
  {
    match s.pc[t]
    case XLock => Go(s.(mutex := t), t, XMark)
    case XMark => Go(WithStatus(s, t, Exit), t, XCheck)
    case XCheck =>
      var p := s.parent[t];
      if s.status[p] == Joining && s.joinee[p] == t then
        Go(WithStatus(s.(woken := s.woken + Asleep(s)), p, OthersNeedToWait), t, XLeave)
      else Go(s, t, XHalt(false))
    case XLeave => Go(s.(mutex := FREE), t, XSpin)
    case XSpin => Go(s, t, XRelock)
    case XRelock => Go(s.(mutex := t), t, XHalt(true))
    case XHalt(told) => Go(s.(active := s.active - {t}), t, XPut(told))
    case XPut(told) => Go(s.(token := FREE), t, XUnlock(told))
    case XUnlock(told) => Go(s.(mutex := FREE), t, Gone)
    case _ => s
  }

  function Do(s: Sys, x: Step): Sys
    requires Enabled(s, x)
  {
    match x
    case Take(t) => s.(token := t)
    case Release(t) => s.(token := FREE)
    case Section(t) => Go(s.(mutex := t), t, Busy)
    case CallJoin(t, c) => Go(s, t, JLock(c))
    case CallExit(t) => Go(s, t, XLock)
    case Wake(t) => Go(s.(mutex := t, woken := s.woken - {t}), t, JLoop(s.pc[t].c, true, true))
    case Run(t) =>
      if s.pc[t].Busy? then Go(s.(mutex := FREE), t, Idle)
      else if InJoin(s.pc[t]) then JoinRun(s, t)
      else ExitRun(s, t)
  }

  // ---- the invariant ----

  predicate HasMutex(p: Pc) {
    p.Busy? || p.JTest? || p.JLoop? || p.JPut? || p.JSleep? || p.JActivate? || p.JReady? || p.JUnlock? ||
    p.XMark? || p.XCheck? || p.XLeave? || p.XHalt? || p.XPut? || p.XUnlock?
  }

  predicate HasToken(p: Pc) {
    p.JLock? || p.JTest? || (p.JLoop? && !p.waited) || (p.JReady? && !p.waited) || (p.JUnlock? && !p.waited) ||
    p.XLock? || p.XMark? || p.XCheck? || p.XLeave? || p.XSpin? || p.XRelock? || p.XHalt? || p.XPut?
  }

  predicate LacksToken(p: Pc) {
    (p.JLoop? && p.waited) || p.JSleep? || p.JAsleep? || p.JActivate? || (p.JReady? && p.waited) ||
    (p.JUnlock? && p.waited) || p.JToken? || p.XUnlock? || p.Gone?
  }

  // Off the active list.
  predicate Halted(p: Pc) {
    (p.JLoop? && p.halted) || p.JPut? || p.JSleep? || p.JAsleep? || p.JActivate? || p.XPut? || p.XUnlock? || p.Gone?
  }

  // Exited, as its own status says.
  predicate Marked(p: Pc) {
    p.XCheck? || p.XLeave? || p.XSpin? || p.XRelock? || p.XHalt? || p.XPut? || p.XUnlock? || p.Gone?
  }

  // In a join, waiting or about to wait for c.
  predicate InWait(p: Pc) {
    (p.JLoop? && p.halted) || p.JPut? || p.JSleep? || p.JAsleep? || p.JActivate? || (p.JReady? && p.halted)
  }

  predicate Held(s: Sys, t: int)
    requires Fits(s) && 0 <= t < |s.pc|
  {
    && (HasMutex(s.pc[t]) <==> s.mutex == t)
    && (HasToken(s.pc[t]) ==> s.token == t)
    && (LacksToken(s.pc[t]) ==> s.token != t)
  }

  predicate Standing(s: Sys, t: int)
    requires Fits(s) && 0 <= t < |s.pc|
  {
    && (t in s.active <==> !Halted(s.pc[t]))
    && (s.status[t] == Exit <==> Marked(s.pc[t]))
    && (s.status[t] == Joining || s.status[t] == OthersNeedToWait ==> InWait(s.pc[t]))
    && (InWait(s.pc[t]) ==> s.status[t] != Ready)
    && (t in s.woken ==> s.pc[t].JAsleep?)
    && (Marked(s.pc[t]) || s.pc[t].XLock? || s.pc[t].XMark? ==> s.parent[t] != t)
  }

  // The side of the parent.
  predicate JoinOk(s: Sys, t: int)
    requires Fits(s) && 0 <= t < |s.pc|
  {
    var p := s.pc[t];
    InJoin(p) ==>
      && 0 <= p.c < |s.pc| && p.c != t && s.parent[p.c] == t
      && (InWait(p) ==> s.joinee[t] == p.c)
      && (p.JLoop? && !p.halted ==> s.status[p.c] == Exit && !p.waited)
      && (p.JLoop? && p.halted && !p.waited ==> s.status[p.c] != Exit && s.status[t] == Joining)
      && (p.JPut? || p.JSleep? ==> s.status[p.c] != Exit && s.status[t] == Joining)
      && (p.JActivate? || p.JReady? || p.JUnlock? || p.JToken? ==> s.status[p.c] == Exit)
      && (p.JActivate? ==> p.waited) && (p.JReady? ==> p.halted == p.waited)
      && (InWait(p) && s.status[p.c] == Exit && !s.pc[p.c].XCheck? ==>
            s.status[t] == OthersNeedToWait && (s.pc[p.c].XLeave? || s.pc[p.c].XSpin?))
      && (InWait(p) && s.status[t] == OthersNeedToWait ==> s.status[p.c] == Exit && !s.pc[p.c].XCheck?)
      && (p.JAsleep? && s.status[t] == OthersNeedToWait ==> t in s.woken)
  }

  predicate Back(s: Sys, c: int)
    requires Fits(s) && 0 <= c < |s.pc|
  {
    var p := s.parent[c];
    p in s.active && (s.pc[p] == JUnlock(c, true) || s.pc[p] == JToken(c))
  }

  // The side of the child.
  predicate ExitOk(s: Sys, c: int)
    requires Fits(s) && 0 <= c < |s.pc|
  {
    var p := s.parent[c];
    && (s.pc[c].XLeave? ==> s.status[p] == OthersNeedToWait && s.joinee[p] == c)
    && (s.pc[c].XSpin? && s.status[p] == OthersNeedToWait ==> s.joinee[p] == c)
    && (s.pc[c].XSpin? && s.status[p] != OthersNeedToWait ==> Back(s, c))
    && (s.pc[c].XRelock? || (s.pc[c].XHalt? && s.pc[c].told) || (s.pc[c].XPut? && s.pc[c].told) ==> Back(s, c))
  }

  predicate ThreadOk(s: Sys, t: int)
    requires Fits(s) && 0 <= t < |s.pc|
  {
    Held(s, t) && Standing(s, t) && JoinOk(s, t) && ExitOk(s, t)
  }

  predicate Inv(s: Sys) {
    Fits(s) && forall t :: 0 <= t < |s.pc| ==> ThreadOk(s, t)
  }

  // ---- steps of a join ----

  ghost predicate CanJoin(s: Sys, t: int) {
    Inv(s) && 0 <= t < |s.pc| && InJoin(s.pc[t]) && Enabled(s, Run(t))
  }

  // A step of t's join as the other threads see it: first what is theirs, then
  // what they share.
  ghost predicate OthersSame(s: Sys, t: int, r: Sys) {
    && Fits(s) && Fits(r) && 0 <= t < |s.pc| == |r.pc| && r.parent == s.parent
    && (forall u :: 0 <= u < |s.pc| && u != t ==>
          r.pc[u] == s.pc[u] && r.status[u] == s.status[u] && r.joinee[u] == s.joinee[u])
  }

  ghost predicate JoinSeen(s: Sys, t: int, r: Sys) {
    && OthersSame(s, t, r)
    && (forall u :: u != t ==> (u in r.active <==> u in s.active) && (u in r.woken <==> u in s.woken))
    && s.status[t] != Exit && r.status[t] != Exit
    && (r.mutex == s.mutex || (s.mutex == FREE && r.mutex == t) || (s.mutex == t && r.mutex == FREE))
    && (r.token == s.token || (s.token == FREE && r.token == t) || (s.token == t && r.token == FREE))
  }

  lemma JoinSame(s: Sys, t: int)
    requires CanJoin(s, t)
    ensures OthersSame(s, t, JoinRun(s, t))
  {
  }

  lemma JoinIsSeen(s: Sys, t: int)
    requires CanJoin(s, t)
    ensures JoinSeen(s, t, JoinRun(s, t))
  {
    JoinSame(s, t);
    assert ThreadOk(s, t);
  }

  lemma JoinHeld(s: Sys, t: int)
    requires CanJoin(s, t) && Fits(JoinRun(s, t))
    ensures Held(JoinRun(s, t), t)
  {
    assert ThreadOk(s, t);
  }

  lemma JoinStanding(s: Sys, t: int)
    requires CanJoin(s, t) && Fits(JoinRun(s, t))
    ensures Standing(JoinRun(s, t), t)
  {
    assert ThreadOk(s, t);
  }

  lemma JoinParent(s: Sys, t: int)
    requires CanJoin(s, t) && Fits(JoinRun(s, t))
    ensures JoinOk(JoinRun(s, t), t)
  {
    assert ThreadOk(s, t) && ThreadOk(s, s.pc[t].c);
  }

  lemma JoinOther(s: Sys, t: int, r: Sys, u: int)
    requires Inv(s) && JoinSeen(s, t, r) && 0 <= u < |s.pc| && u != t
    ensures Held(r, u) && Standing(r, u) && JoinOk(r, u)
  {
    assert ThreadOk(s, u);
    if InJoin(s.pc[u]) && s.pc[u].c == t { assert ThreadOk(s, t); }
  }

  lemma JoinOtherChild(s: Sys, t: int, u: int)
    requires CanJoin(s, t) && Fits(JoinRun(s, t)) && 0 <= u < |s.pc| && u != t
    ensures ExitOk(JoinRun(s, t), u)
  {
    assert ThreadOk(s, u) && ThreadOk(s, t) && ThreadOk(s, s.pc[t].c);
  }

  lemma JoinKeeps(s: Sys, t: int)
    requires CanJoin(s, t)
    ensures Inv(JoinRun(s, t))
  {
    var r := JoinRun(s, t);
    JoinIsSeen(s, t);
    forall u | 0 <= u < |r.pc|
      ensures ThreadOk(r, u)
    {
      if u == t {
        JoinHeld(s, t);
        JoinStanding(s, t);
        JoinParent(s, t);
      } else {
        JoinOther(s, t, r, u);
        JoinOtherChild(s, t, u);
      }
    }
  }

  // ---- steps of an exit ----

  ghost predicate CanExit(s: Sys, t: int) {
    Inv(s) && 0 <= t < |s.pc| && !InJoin(s.pc[t]) && !s.pc[t].Busy? && Enabled(s, Run(t))
  }

  // A step of t's exit as the threads other than t and its parent see it.
  ghost predicate ExitSeen(s: Sys, t: int, r: Sys) {
    && Fits(s) && Fits(r) && 0 <= t < |s.pc| == |r.pc| && r.parent == s.parent && r.joinee == s.joinee
    && (forall u :: 0 <= u < |s.pc| && u != t ==> r.pc[u] == s.pc[u])
    && (forall u :: 0 <= u < |s.pc| && u != t ==>
          r.status[u] == s.status[u] ||
          (u == s.parent[t] && s.pc[t].XCheck? && s.status[u] == Joining && s.joinee[u] == t &&
           r.status[u] == OthersNeedToWait && r.pc[t].XLeave? && s.mutex == t))
    && (forall u :: u != t ==> (u in r.active <==> u in s.active))
    && s.woken <= r.woken <= s.woken + Asleep(s)
    && (r.mutex == s.mutex || (s.mutex == FREE && r.mutex == t) || (s.mutex == t && r.mutex == FREE))
    && (r.token == s.token || (s.token == t && r.token == FREE))
  }

  lemma ExitIsSeen(s: Sys, t: int)
    requires CanExit(s, t)
    ensures ExitSeen(s, t, ExitRun(s, t))
  {
    assert ThreadOk(s, t) && ThreadOk(s, s.parent[t]);
  }

  lemma ExitHeld(s: Sys, t: int)
    requires CanExit(s, t) && Fits(ExitRun(s, t))
    ensures Held(ExitRun(s, t), t)
  {
    assert ThreadOk(s, t) && ThreadOk(s, s.parent[t]);
  }

  lemma ExitStanding(s: Sys, t: int)
    requires CanExit(s, t) && Fits(ExitRun(s, t))
    ensures Standing(ExitRun(s, t), t) && JoinOk(ExitRun(s, t), t)
  {
    assert ThreadOk(s, t);
  }

  lemma ExitChild(s: Sys, t: int)
    requires CanExit(s, t) && Fits(ExitRun(s, t))
    ensures ExitOk(ExitRun(s, t), t)
  {
    assert ThreadOk(s, t) && ThreadOk(s, s.parent[t]);
  }

  lemma ExitOther(s: Sys, t: int, r: Sys, u: int)
    requires Inv(s) && ExitSeen(s, t, r) && 0 <= u < |s.pc| && u != t
    ensures Held(r, u) && Standing(r, u)
  {
    assert ThreadOk(s, u);
  }

  lemma ExitOtherParent(s: Sys, t: int, r: Sys, u: int)
    requires Inv(s) && ExitSeen(s, t, r)
    requires 0 <= u < |s.pc| && u != t && !(InJoin(s.pc[u]) && s.pc[u].c == t)
    ensures JoinOk(r, u)
  {
    assert ThreadOk(s, u);
    if InJoin(s.pc[u]) { assert ThreadOk(s, s.pc[u].c); }
  }

  lemma ExitParent(s: Sys, t: int, u: int)
    requires CanExit(s, t) && Fits(ExitRun(s, t)) && 0 <= u < |s.pc| && u != t && InJoin(s.pc[u]) && s.pc[u].c == t
    ensures JoinOk(ExitRun(s, t), u)
  {
    assert ThreadOk(s, u) && ThreadOk(s, t);
  }

  lemma ExitOtherChild(s: Sys, t: int, u: int)
    requires CanExit(s, t) && Fits(ExitRun(s, t)) && 0 <= u < |s.pc| && u != t
    ensures ExitOk(ExitRun(s, t), u)
  {
    assert ThreadOk(s, u) && ThreadOk(s, t) && ThreadOk(s, s.parent[t]);
  }

  lemma ExitKeeps(s: Sys, t: int)
    requires CanExit(s, t)
    ensures Inv(ExitRun(s, t))
  {
    var r := ExitRun(s, t);
    ExitIsSeen(s, t);
    forall u | 0 <= u < |r.pc|
      ensures ThreadOk(r, u)
    {
      if u == t {
        ExitHeld(s, t);
        ExitStanding(s, t);
        ExitChild(s, t);
      } else {
        ExitOther(s, t, r, u);
        if InJoin(s.pc[u]) && s.pc[u].c == t {
          ExitParent(s, t, u);
        } else {
          ExitOtherParent(s, t, r, u);
        }
        ExitOtherChild(s, t, u);
      }
    }
  }

  // ---- the other steps ----

  predicate Outer(s: Sys, x: Step) {
    Enabled(s, x) && (x.Run? ==> s.pc[x.t].Busy?)
  }

  lemma OuterHeld(s: Sys, x: Step, u: int)
    requires Inv(s) && Outer(s, x) && 0 <= u < |s.pc|
    ensures Fits(Do(s, x)) && Held(Do(s, x), u)
  {
    assert ThreadOk(s, u) && ThreadOk(s, x.t);
  }

  lemma OuterStanding(s: Sys, x: Step, u: int)
    requires Inv(s) && Outer(s, x) && 0 <= u < |s.pc|
    ensures Fits(Do(s, x)) && Standing(Do(s, x), u)
  {
    assert ThreadOk(s, u) && ThreadOk(s, x.t);
  }

  lemma WakeParent(s: Sys, t: int, u: int)
    requires Inv(s) && Enabled(s, Wake(t)) && 0 <= u < |s.pc|
    ensures Fits(Do(s, Wake(t))) && JoinOk(Do(s, Wake(t)), u)
  {
    assert ThreadOk(s, u) && ThreadOk(s, t);
  }

  lemma OuterParent(s: Sys, x: Step, u: int)
    requires Inv(s) && Outer(s, x) && !x.Wake? && 0 <= u < |s.pc|
    ensures Fits(Do(s, x)) && JoinOk(Do(s, x), u)
  {
    assert ThreadOk(s, u) && ThreadOk(s, x.t);
  }

  lemma OuterChild(s: Sys, x: Step, u: int)
    requires Inv(s) && Outer(s, x) && 0 <= u < |s.pc|
    ensures Fits(Do(s, x)) && ExitOk(Do(s, x), u)
  {
    assert ThreadOk(s, u) && ThreadOk(s, x.t);
  }

  lemma StepKeeps(s: Sys, x: Step)
    requires Inv(s) && Enabled(s, x)
    ensures Inv(Do(s, x))
  {
    if Outer(s, x) {
      var r := Do(s, x);
      assert Fits(r) && |r.pc| == |s.pc|;
      forall u | 0 <= u < |r.pc|
        ensures ThreadOk(r, u)
      {
        OuterHeld(s, x, u);
        OuterStanding(s, x, u);
        if x.Wake? { WakeParent(s, x.t, u); } else { OuterParent(s, x, u); }
        OuterChild(s, x, u);
      }
    } else if InJoin(s.pc[x.t]) {
      JoinKeeps(s, x.t);
    } else {
      ExitKeeps(s, x.t);
    }
  }

  // ---- runs ----

  // All threads running, none joining or exiting.
  predicate Start(s: Sys) {
    && Fits(s) && s.token == FREE && s.mutex == FREE && s.woken == {}
    && forall t :: 0 <= t < |s.pc| ==> s.pc[t] == Idle && s.status[t] == Ready && t in s.active
  }

  predicate Runs(s: Sys, xs: seq<Step>)
    decreases |xs|, 0
  {
    xs == [] || (Runs(s, xs[..|xs| - 1]) && Enabled(After(s, xs[..|xs| - 1]), xs[|xs| - 1]))
  }

  function After(s: Sys, xs: seq<Step>): Sys
    requires Runs(s, xs)
    decreases |xs|, 1
  {
    if xs == [] then s else Do(After(s, xs[..|xs| - 1]), xs[|xs| - 1])
  }

  lemma {:induction false} RunKeeps(s: Sys, xs: seq<Step>)
    requires Start(s) && Runs(s, xs)
    ensures Inv(After(s, xs))
    decreases |xs|
  {
    if xs == [] {
      assert forall t :: 0 <= t < |s.pc| ==> ThreadOk(s, t);
    } else {
      RunKeeps(s, xs[..|xs| - 1]);
      StepKeeps(After(s, xs[..|xs| - 1]), xs[|xs| - 1]);
    }
  }

  // The hand-off: by the time a child that told its parent is about to halt, and
  // still when it is about to let the token go, the parent has left the loop
  // having seen the exit, is back on the active list, and needs only the token.
  lemma ParentBackFirst(s: Sys, xs: seq<Step>, c: int)
    requires Start(s) && Runs(s, xs) && 0 <= c < |After(s, xs).pc|
    requires After(s, xs).pc[c] == XHalt(true) || After(s, xs).pc[c] == XPut(true)
    ensures Inv(After(s, xs))
    ensures
      var v := After(s, xs);
      && Back(v, c) && v.status[c] == Exit && v.token == c
      && v.status[v.parent[c]] != OthersNeedToWait
  {
    RunKeeps(s, xs);
    assert ThreadOk(After(s, xs), c) && ThreadOk(After(s, xs), After(s, xs).parent[c]);
  }

  // A child that halts without telling its parent leaves no parent halted in a
  // join on it: no parent is ever left waiting for a thread that is gone.
  lemma NoneLeftBehind(s: Sys, xs: seq<Step>, c: int)
    requires Start(s) && Runs(s, xs) && 0 <= c < |After(s, xs).pc|
    requires var p := After(s, xs).pc[c]; p.XHalt? || p.XPut? || p.XUnlock? || p.Gone?
    ensures Inv(After(s, xs))
    ensures
      var v := After(s, xs);
      var q := v.pc[v.parent[c]];
      !(InWait(q) && q.c == c)
  {
    RunKeeps(s, xs);
    var v := After(s, xs);
    assert ThreadOk(v, c) && ThreadOk(v, v.parent[c]);
  }

  // Nor does a child wait in vain: while it spins, its parent has been woken and
  // can take a step, or some other thread holds the mutex and can take one.
  lemma SpinEnds(s: Sys, xs: seq<Step>, c: int)
    requires Start(s) && Runs(s, xs) && 0 <= c < |After(s, xs).pc|
    requires After(s, xs).pc[c].XSpin?
    ensures Inv(After(s, xs))
    ensures
      var v := After(s, xs);
      var p := v.parent[c];
      || Enabled(v, Run(c))
      || (v.pc[p].JAsleep? && p in v.woken && Enabled(v, Wake(p)))
      || (!v.pc[p].JAsleep? && Enabled(v, Run(p)))
      || (v.mutex != FREE && v.mutex != c && v.mutex != p && Enabled(v, Run(v.mutex)))
  {
    RunKeeps(s, xs);
    var v := After(s, xs);
    var p := v.parent[c];
    assert ThreadOk(v, c) && ThreadOk(v, p);
    if v.mutex != FREE { assert ThreadOk(v, v.mutex); }
  }

  // The statement with which a join returns leaves its thread with the token, ready
  // and on the active list, and the child has exited, whether it had to wait or not.
  lemma JoinReturns(s: Sys, xs: seq<Step>, t: int)
    requires Start(s) && Runs(s, xs) && 0 <= t < |After(s, xs).pc|
    requires InJoin(After(s, xs).pc[t]) && Enabled(After(s, xs), Run(t))
    requires Do(After(s, xs), Run(t)).pc[t] == Idle
    ensures
      var v := Do(After(s, xs), Run(t));
      var c := After(s, xs).pc[t].c;
      && v.token == t && t in v.active && v.status[t] == Ready && v.mutex != t
      && 0 <= c < |v.status| && v.parent[c] == t && v.status[c] == Exit
  {
    RunKeeps(s, xs);
    assert ThreadOk(After(s, xs), t) && ThreadOk(After(s, xs), After(s, xs).pc[t].c);
    StepKeeps(After(s, xs), Run(t));
    assert ThreadOk(Do(After(s, xs), Run(t)), t);
  }

  // A thread that has exited is off the active list and holds neither the token nor
  // the mutex, and it does so for ever: it has no step left.
  lemma ExitReturns(s: Sys, xs: seq<Step>, t: int)
    requires Start(s) && Runs(s, xs) && 0 <= t < |After(s, xs).pc| && After(s, xs).pc[t].Gone?
    ensures
      var v := After(s, xs);
      && t !in v.active && v.token != t && v.mutex != t && v.status[t] == Exit
      && forall x: Step :: Enabled(v, x) ==> x.t != t
  {
    RunKeeps(s, xs);
    assert ThreadOk(After(s, xs), t);
  }

  // The token changes hands only where a thread takes it, at the end of a join that
  // waited, and where its holder lets it go: by itself, before it waits, or when it
  // exits. A call begins its operation and changes nothing else.
  lemma TokenExact(s: Sys, x: Step)
    requires Inv(s) && Enabled(s, x)
    ensures
      var v, p := Do(s, x), s.pc[x.t];
      && v.token == (if x.Take? || (x.Run? && p.JToken?) then x.t
                     else if x.Release? || (x.Run? && (p.XPut? || (p.JPut? && s.token == x.t))) then FREE
                     else s.token)
      && (x.Take? || x.Release? ==> v == s.(token := v.token))
      && (x.CallJoin? ==> v == s.(pc := s.pc[x.t := v.pc[x.t]]) && InJoin(v.pc[x.t]) && v.pc[x.t].c == x.c)
      && (x.CallExit? ==> v == s.(pc := s.pc[x.t := XLock]))
  {
    assert ThreadOk(s, x.t);
  }

  // A thread in join or in its exit can take its next statement, unless that one
  // waits: for the mutex, for the token, for its child, or for its parent. A holder can
  // begin either, and nothing else stands in the way of a free token or mutex.
  lemma CanGoOn(s: Sys, t: int, c: int)
    requires Inv(s) && 0 <= t < |s.pc|
    ensures
      var p := s.pc[t];
      && (HasMutex(p) && !p.Busy? ==> Enabled(s, Run(t)))
      && (s.mutex == FREE && (p.JLock? || p.XLock? || p.XRelock?) ==> Enabled(s, Run(t)))
      && (s.token == FREE && p.JToken? ==> Enabled(s, Run(t)))
      && (s.mutex == FREE && p.JAsleep? ==> Enabled(s, Wake(t)))
      && (s.mutex == FREE && p.Idle? ==> Enabled(s, Section(t)))
      && (s.token == FREE && p.Idle? ==> Enabled(s, Take(t)))
      && (s.token == t && p.Idle? ==> Enabled(s, Release(t)))
      && (s.token == t && p.Idle? && s.parent[t] != t ==> Enabled(s, CallExit(t)))
      && (s.token == t && p.Idle? && 0 <= c < |s.pc| && c != t && s.parent[c] == t ==> Enabled(s, CallJoin(t, c)))
  {
    assert ThreadOk(s, t);
  }
}
