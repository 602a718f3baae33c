// Where the promise of the token fails: runs of a program, from the start of the
// process on, that bring a thread to the token although it is not the least
// active one (src/thread_lib/include/determ.h:615-690, 854-856, 1012-1050).
module Overtakings {
  import opened Clocks
  import opened TokenProtocol
  import opened Scheduling
  import opened Scenes
  import D = Determinism

  // The scene a run has come to, and the order in which the token was taken.
  datatype Shot = Shot(log: seq<int>, scene: Scene)

  ghost predicate ShotReached(p: Play, a: Shot, clean: bool) {
    Reached(p, a.log, a.scene, clean)
  }

  predicate Cut(p: Play, a: Shot, q: Cue, b: Shot) {
    CanCue(p, a.scene, q) && Gentle(a.scene, q) && b == Shot(Logged(a.log, q), Cued(p, a.scene, q))
  }

  predicate CutThrough(p: Play, a: Shot, cur: int, again: bool, b: Shot) {
    CanCue(p, a.scene, Look(cur)) && a.scene.token == FREE && b == Shot(a.log + [cur], Passed(a.scene, cur, again))
  }

  lemma CutReached(p: Play, a: Shot, clean: bool, q: Cue, b: Shot)
    requires ShotReached(p, a, clean) && Cut(p, a, q, b) && (clean || Plain(q))
    ensures ShotReached(p, b, clean)
  {
    CueReached(p, a.log, a.scene, clean, q);
  }

  lemma ThroughReached(p: Play, a: Shot, clean: bool, cur: int, again: bool, b: Shot)
    requires ShotReached(p, a, clean) && CutThrough(p, a, cur, again, b)
    ensures ShotReached(p, b, clean)
  {
    PassReached(p, a.log, a.scene, clean, cur, again);
  }

  // ---- the programs ----

  // Thread 0 creates threads 1 and 2; each creation takes the token twice
  // (src/thread_lib/include/xrun.h:316-343).
  function CreateSync(s: int, l: int): D.Outcome<int, int> {
    var births := if l == 0 then map[1 := D.Birth(0, 0)] else if l == 2 then map[2 := D.Birth(0, 0)] else map[];
    D.Outcome(s, 0, l + 1, false, {}, births)
  }

  // No thread has work between its operations. Here 1 then waits on a condition,
  // which 2 signals, while 0 goes on to an operation of its own.
  function CondSync(s: int, t: int, c: int, l: int): D.Outcome<int, int> {
    if t == 0 && l < 3 then CreateSync(s, l)
    else if t == 0 && l == 3 then D.Outcome(s, 9, 4, false, {}, map[])
    else if t == 1 && l == 0 then D.Outcome(s, 0, 1, true, {}, map[])
    else if t == 2 && l == 0 then D.Outcome(s, 14, 1, false, {1}, map[])
    else D.Outcome(s, 0, l + 1, false, {}, map[])
  }

  // Here 0 joins 1.
  function JoinSync(s: int, t: int, c: int, l: int): D.Outcome<int, int> {
    if t == 0 && l < 3 then CreateSync(s, l)
    else if t == 0 && l == 4 then D.Outcome(s, 0, 5, true, {}, map[])
    else D.Outcome(s, 0, l + 1, false, {}, map[])
  }

  function NoWork(l: int): nat { 0 }

  function CondPlay(): Play { D.Program(NoWork, CondSync) }

  function JoinPlay(): Play { D.Program(NoWork, JoinSync) }

  // p begins by creating the threads.
  ghost predicate Creates(p: Play) {
    && (forall l :: p.work(l) == 0)
    && forall s, c, l :: l < 3 ==> p.sync(s, 0, c, l) == CreateSync(s, l)
  }

  lemma PlaysCreate()
    ensures Creates(CondPlay()) && Creates(JoinPlay())
  {
  }

  // ---- thread 0 creates the others ----

  const OPEN0 := Shot([], First())

  const OPEN1 := Shot([], Scene(
    View([0, 0, 0], [false, false, false], [true, false, false], [true, false, false], [0], 0, false),
    FREE, 0, [Spin, Off, Off], [0, 0, 0], NOTHING))

  const OPEN2 := Shot([0], Scene(
    View([0, 0, 0], [false, false, false], [false, false, false], [true, false, false], [0], 0, false),
    0, 0, [Hold(true), Off, Off], [0, 0, 0], NOTHING))

  const OPEN3 := Shot([0], Scene(
    View([0, 1, 0], [false, false, false], [false, false, false], [true, true, false], [0, 1], 0, false),
    0, 0, [Hold(true), Spin, Off], [0, 0, 0], Effect(0, false, {}, map[1 := 0])))

  const OPEN4 := Shot([0], Scene(
    View([0, 1, 0], [false, false, false], [false, false, false], [true, true, false], [0, 1], 0, false),
    FREE, 0, [Spin, Spin, Off], [1, 0, 0], NOTHING))

  const OPEN5 := Shot([0], Scene(
    View([0, 1, 0], [false, false, false], [true, false, false], [true, true, false], [0, 1], 0, false),
    FREE, 0, [Spin, Spin, Off], [1, 0, 0], NOTHING))

  const OPEN6 := Shot([0, 0], Scene(
    View([0, 1, 0], [false, false, false], [false, false, false], [true, true, false], [0, 1], 0, false),
    0, 0, [Hold(false), Spin, Off], [1, 0, 0], NOTHING))

  const OPEN7 := Shot([0, 0], Scene(
    View([0, 1, 0], [false, false, false], [false, false, false], [true, true, false], [0, 1], 0, false),
    FREE, 0, [Run, Spin, Off], [2, 0, 0], NOTHING))

  const OPEN8 := Shot([0, 0], Scene(
    View([0, 1, 0], [false, false, false], [true, false, false], [true, true, false], [0, 1], 0, false),
    FREE, 0, [Spin, Spin, Off], [2, 0, 0], NOTHING))

  const OPEN9 := Shot([0, 0, 0], Scene(
    View([0, 1, 0], [false, false, false], [false, false, false], [true, true, false], [0, 1], 0, false),
    0, 0, [Hold(true), Spin, Off], [2, 0, 0], NOTHING))

  const OPEN10 := Shot([0, 0, 0], Scene(
    View([0, 1, 1], [false, false, false], [false, false, false], [true, true, true], [0, 1, 2], 0, false),
    0, 0, [Hold(true), Spin, Spin], [2, 0, 0], Effect(0, false, {}, map[2 := 0])))

  const OPEN11 := Shot([0, 0, 0], Scene(
    View([0, 1, 1], [false, false, false], [false, false, false], [true, true, true], [0, 1, 2], 0, false),
    FREE, 0, [Spin, Spin, Spin], [3, 0, 0], NOTHING))

  const OPEN12 := Shot([0, 0, 0], Scene(
    View([0, 1, 1], [false, false, false], [true, false, false], [true, true, true], [0, 1, 2], 0, false),
    FREE, 0, [Spin, Spin, Spin], [3, 0, 0], NOTHING))

  const OPEN13 := Shot([0, 0, 0, 0], Scene(
    View([0, 1, 1], [false, false, false], [false, false, false], [true, true, true], [0, 1, 2], 0, false),
    0, 0, [Hold(false), Spin, Spin], [3, 0, 0], NOTHING))

  lemma OpenCuts1(p: Play)
    requires Creates(p)
    ensures Cut(p, OPEN0, Alone(0), OPEN1)
    ensures CutThrough(p, OPEN1, 0, true, OPEN2)
  {
  }

  lemma OpenCuts2(p: Play)
    requires Creates(p)
    ensures Cut(p, OPEN2, Create(0, 1), OPEN3)
  {
  }

  lemma OpenCuts3(p: Play)
    requires Creates(p)
    ensures Cut(p, OPEN3, Give(0), OPEN4)
  {
  }

  lemma OpenCuts4(p: Play)
    requires Creates(p)
    ensures Cut(p, OPEN4, Ask(0, 0), OPEN5)
    ensures CutThrough(p, OPEN5, 0, false, OPEN6)
  {
  }

  lemma OpenCuts5(p: Play)
    requires Creates(p)
    ensures Cut(p, OPEN6, Give(0), OPEN7)
  {
  }

  lemma OpenCuts6(p: Play)
    requires Creates(p)
    ensures Cut(p, OPEN7, Enter(0, 0), OPEN8)
  {
  }

  lemma OpenCuts7(p: Play)
    requires Creates(p)
    ensures CutThrough(p, OPEN8, 0, true, OPEN9)
  {
  }

  lemma OpenCuts8(p: Play)
    requires Creates(p)
    ensures Cut(p, OPEN9, Create(0, 2), OPEN10)
  {
  }

  lemma OpenCuts9(p: Play)
    requires Creates(p)
    ensures Cut(p, OPEN10, Give(0), OPEN11)
  {
  }

  lemma OpenCuts10(p: Play)
    requires Creates(p)
    ensures Cut(p, OPEN11, Ask(0, 0), OPEN12)
    ensures CutThrough(p, OPEN12, 0, false, OPEN13)
  {
  }

  lemma OpenRun1(p: Play)
    requires Creates(p)
    ensures ShotReached(p, OPEN6, true)
  {
    FirstReached(p);
    OpenCuts1(p);
    CutReached(p, OPEN0, true, Alone(0), OPEN1);
    ThroughReached(p, OPEN1, true, 0, true, OPEN2);
    OpenCuts2(p);
    CutReached(p, OPEN2, true, Create(0, 1), OPEN3);
    OpenCuts3(p);
    CutReached(p, OPEN3, true, Give(0), OPEN4);
    OpenCuts4(p);
    CutReached(p, OPEN4, true, Ask(0, 0), OPEN5);
    ThroughReached(p, OPEN5, true, 0, false, OPEN6);
  }

  lemma OpenRun2(p: Play)
    requires Creates(p)
    ensures ShotReached(p, OPEN13, true)
  {
    OpenRun1(p);
    OpenCuts5(p);
    CutReached(p, OPEN6, true, Give(0), OPEN7);
    OpenCuts6(p);
    CutReached(p, OPEN7, true, Enter(0, 0), OPEN8);
    OpenCuts7(p);
    ThroughReached(p, OPEN8, true, 0, true, OPEN9);
    OpenCuts8(p);
    CutReached(p, OPEN9, true, Create(0, 2), OPEN10);
    OpenCuts9(p);
    CutReached(p, OPEN10, true, Give(0), OPEN11);
    OpenCuts10(p);
    CutReached(p, OPEN11, true, Ask(0, 0), OPEN12);
    ThroughReached(p, OPEN12, true, 0, false, OPEN13);
  }

  // ---- thread 1 waits, and 2 goes to signal it ----

  const COND1 := Shot([0, 0, 0, 0], Scene(
    View([9, 1, 1], [true, false, false], [false, false, false], [true, true, true], [0, 1, 2], -1, true),
    0, 0, [Hold(false), Spin, Spin], [3, 0, 0], Effect(9, false, {}, map[])))

  const COND2 := Shot([0, 0, 0, 0], Scene(
    View([9, 1, 1], [true, false, false], [false, false, false], [true, true, true], [0, 1, 2], -1, true),
    FREE, 0, [Run, Spin, Spin], [4, 0, 0], NOTHING))

  const COND3 := Shot([0, 0, 0, 0], Scene(
    View([9, 1, 1], [true, false, false], [false, false, false], [true, true, true], [0, 1, 2], -1, true),
    FREE, 0, [Spin, Spin, Spin], [4, 0, 0], NOTHING))

  const COND4 := Shot([0, 0, 0, 0], Scene(
    View([9, 1, 1], [true, false, false], [false, true, false], [true, true, true], [0, 1, 2], 1, false),
    FREE, 0, [Spin, Spin, Spin], [4, 0, 0], NOTHING))

  const COND5 := Shot([0, 0, 0, 0, 1], Scene(
    View([9, 1, 1], [true, false, false], [false, false, false], [true, true, true], [0, 1, 2], 1, false),
    1, 0, [Spin, Hold(false), Spin], [4, 0, 0], NOTHING))

  const COND6 := Shot([0, 0, 0, 0, 1], Scene(
    View([9, 1, 1], [true, false, false], [false, false, false], [true, true, true], [0, 2], -1, true),
    1, 0, [Spin, Leave, Spin], [4, 0, 0], Effect(0, true, {}, map[])))

  const COND7 := Shot([0, 0, 0, 0, 1], Scene(
    View([9, 1, 1], [true, false, false], [false, false, false], [true, true, true], [0, 2], -1, true),
    FREE, 0, [Spin, Off, Spin], [4, 1, 0], NOTHING))

  const COND8 := Shot([0, 0, 0, 0, 1], Scene(
    View([9, 1, 1], [true, false, false], [false, false, true], [true, true, true], [0, 2], 2, false),
    FREE, 0, [Spin, Off, Spin], [4, 1, 0], NOTHING))

  const COND9 := Shot([0, 0, 0, 0, 1, 2], Scene(
    View([9, 1, 1], [true, false, false], [false, false, false], [true, true, true], [0, 2], 2, false),
    2, 0, [Spin, Off, Hold(false)], [4, 1, 0], NOTHING))

  const COND10 := Shot([0, 0, 0, 0, 1, 2], Scene(
    View([9, 1, 15], [true, false, true], [true, false, false], [true, true, true], [0, 2], 0, false),
    2, 0, [Spin, Off, Hold(false)], [4, 1, 0], Effect(14, false, {}, map[])))

  lemma CondCuts1()
    ensures Cut(CondPlay(), OPEN13, Tick(0, 9, 1), COND1)
  {
  }

  lemma CondCuts2()
    ensures Cut(CondPlay(), COND1, Give(0), COND2)
  {
  }

  lemma CondCuts3()
    ensures Cut(CondPlay(), COND2, Enter(0, 1), COND3)
  {
  }

  lemma CondCuts4()
    ensures Cut(CondPlay(), COND3, Ask(1, 1), COND4)
    ensures CutThrough(CondPlay(), COND4, 1, false, COND5)
  {
  }

  lemma CondCuts5()
    ensures Cut(CondPlay(), COND5, Quit(1, 2), COND6)
  {
  }

  lemma CondCuts6()
    ensures Cut(CondPlay(), COND6, Give(1), COND7)
  {
  }

  lemma CondCuts7()
    ensures Cut(CondPlay(), COND7, Ask(2, 2), COND8)
    ensures CutThrough(CondPlay(), COND8, 2, false, COND9)
  {
  }

  lemma CondCuts8()
    ensures Cut(CondPlay(), COND9, Tick(2, 14, 0), COND10)
  {
  }

  lemma CondRun1()
    ensures ShotReached(CondPlay(), COND5, true)
  {
    PlaysCreate();
    OpenRun2(CondPlay());
    CondCuts1();
    CutReached(CondPlay(), OPEN13, true, Tick(0, 9, 1), COND1);
    CondCuts2();
    CutReached(CondPlay(), COND1, true, Give(0), COND2);
    CondCuts3();
    CutReached(CondPlay(), COND2, true, Enter(0, 1), COND3);
    CondCuts4();
    CutReached(CondPlay(), COND3, true, Ask(1, 1), COND4);
    ThroughReached(CondPlay(), COND4, true, 1, false, COND5);
  }

  lemma CondRun2()
    ensures ShotReached(CondPlay(), COND10, true)
  {
    CondRun1();
    CondCuts5();
    CutReached(CondPlay(), COND5, true, Quit(1, 2), COND6);
    CondCuts6();
    CutReached(CondPlay(), COND6, true, Give(1), COND7);
    CondCuts7();
    CutReached(CondPlay(), COND7, true, Ask(2, 2), COND8);
    ThroughReached(CondPlay(), COND8, true, 2, false, COND9);
    CondCuts8();
    CutReached(CondPlay(), COND9, true, Tick(2, 14, 0), COND10);
  }

  // ---- thread 0, told that it is the lowest, looks only after the signal ----

  const LATE1 := Shot([0, 0, 0, 0, 1, 2], Scene(
    View([9, 1, 15], [true, false, true], [true, false, false], [true, true, true], [0, 2, 1], 0, false),
    2, 1, [Spin, Spin, Hold(false)], [4, 1, 0], Effect(14, false, {1}, map[])))

  const LATE2 := Shot([0, 0, 0, 0, 1, 2], Scene(
    View([9, 1, 15], [true, false, true], [true, false, false], [true, true, true], [0, 2, 1], 0, false),
    FREE, 1, [Spin, Spin, Run], [4, 1, 1], NOTHING))

  lemma LateCuts()
    ensures CanCue(CondPlay(), COND10.scene, Post(2, 1))
    ensures LATE1 == Shot(COND10.log, Cued(CondPlay(), COND10.scene, Post(2, 1)))
    ensures Cut(CondPlay(), LATE1, Give(2), LATE2)
    ensures CanCue(CondPlay(), LATE2.scene, Look(0)) && LATE2.scene.token == FREE
  {
  }

  lemma LateRun()
    ensures Reached(CondPlay(), [0, 0, 0, 0, 1, 2, 0], Passed(LATE2.scene, 0, false), false)
  {
    CondRun2();
    LateCuts();
    HarmReached(CondPlay(), COND10.log, COND10.scene, Post(2, 1));
    CutReached(CondPlay(), LATE1, false, Give(2), LATE2);
    PassReached(CondPlay(), LATE2.log, LATE2.scene, false, 0, false);
    assert LATE2.log + [0] == [0, 0, 0, 0, 1, 2, 0];
  }

  // ---- thread 0 looks before the signal ----

  const PROMPT1 := Shot([0, 0, 0, 0, 1, 2], Scene(
    View([9, 1, 15], [false, false, true], [false, false, false], [true, true, true], [0, 2], 0, false),
    2, 0, [Seen(0), Off, Hold(false)], [4, 1, 0], Effect(14, false, {}, map[])))

  const PROMPT2 := Shot([0, 0, 0, 0, 1, 2], Scene(
    View([9, 1, 15], [false, false, true], [false, false, false], [true, true, true], [0, 2, 1], 0, false),
    2, 1, [Seen(0), Spin, Hold(false)], [4, 1, 0], Effect(14, false, {1}, map[])))

  const PROMPT3 := Shot([0, 0, 0, 0, 1, 2], Scene(
    View([9, 1, 15], [false, false, true], [false, false, false], [true, true, true], [0, 2, 1], 0, false),
    FREE, 1, [Seen(0), Spin, Run], [4, 1, 1], NOTHING))

  const PROMPT4 := Shot([0, 0, 0, 0, 1, 2], Scene(
    View([9, 1, 15], [false, false, true], [false, true, false], [true, true, true], [0, 2, 1], 1, false),
    FREE, 1, [Seen(0), Spin, Run], [4, 1, 1], NOTHING))

  const PROMPT5 := Shot([0, 0, 0, 0, 1, 2, 1], Scene(
    View([9, 1, 15], [false, false, true], [false, false, false], [true, true, true], [0, 2, 1], 1, false),
    1, 1, [Seen(0), Hold(false), Run], [4, 1, 1], NOTHING))

  lemma PromptCuts1()
    ensures Cut(CondPlay(), COND10, Look(0), PROMPT1)
    ensures Cut(CondPlay(), PROMPT1, Post(2, 1), PROMPT2)
  {
  }

  lemma PromptCuts2()
    ensures Cut(CondPlay(), PROMPT2, Give(2), PROMPT3)
  {
  }

  lemma PromptCuts3()
    ensures Cut(CondPlay(), PROMPT3, Ask(1, 1), PROMPT4)
    ensures CutThrough(CondPlay(), PROMPT4, 1, false, PROMPT5)
  {
  }

  lemma PromptRun()
    ensures ShotReached(CondPlay(), PROMPT5, true)
  {
    CondRun2();
    PromptCuts1();
    CutReached(CondPlay(), COND10, true, Look(0), PROMPT1);
    CutReached(CondPlay(), PROMPT1, true, Post(2, 1), PROMPT2);
    PromptCuts2();
    CutReached(CondPlay(), PROMPT2, true, Give(2), PROMPT3);
    PromptCuts3();
    CutReached(CondPlay(), PROMPT3, true, Ask(1, 1), PROMPT4);
    ThroughReached(CondPlay(), PROMPT4, true, 1, false, PROMPT5);
  }

  // ---- thread 1 exits while thread 0 waits for it ----

  const JOIN1 := Shot([0, 0, 0, 0], Scene(
    View([0, 1, 1], [false, false, false], [false, false, false], [true, true, true], [0, 1, 2], 0, false),
    FREE, 0, [Run, Spin, Spin], [4, 0, 0], NOTHING))

  const JOIN2 := Shot([0, 0, 0, 0], Scene(
    View([0, 1, 1], [false, false, false], [true, false, false], [true, true, true], [0, 1, 2], 0, false),
    FREE, 0, [Spin, Spin, Spin], [4, 0, 0], NOTHING))

  const JOIN3 := Shot([0, 0, 0, 0, 0], Scene(
    View([0, 1, 1], [false, false, false], [false, false, false], [true, true, true], [0, 1, 2], 0, false),
    0, 0, [Hold(false), Spin, Spin], [4, 0, 0], NOTHING))

  const JOIN4 := Shot([0, 0, 0, 0, 0], Scene(
    View([0, 1, 1], [false, false, false], [false, false, false], [true, true, true], [1, 2], -1, true),
    0, 0, [Leave, Spin, Spin], [4, 0, 0], Effect(0, true, {}, map[])))

  const JOIN5 := Shot([0, 0, 0, 0, 0], Scene(
    View([0, 1, 1], [false, false, false], [false, false, false], [true, true, true], [1, 2], -1, true),
    FREE, 0, [Off, Spin, Spin], [5, 0, 0], NOTHING))

  const JOIN6 := Shot([0, 0, 0, 0, 0], Scene(
    View([0, 1, 1], [false, false, false], [false, true, false], [true, true, true], [1, 2], 1, false),
    FREE, 0, [Off, Spin, Spin], [5, 0, 0], NOTHING))

  const JOIN7 := Shot([0, 0, 0, 0, 0, 1], Scene(
    View([0, 1, 1], [false, false, false], [false, false, false], [true, true, true], [1, 2], 1, false),
    1, 0, [Off, Hold(false), Spin], [5, 0, 0], NOTHING))

  const JOIN8 := Shot([0, 0, 0, 0, 0, 1], Scene(
    View([0, 6, 1], [false, true, false], [false, false, false], [true, true, true], [1, 2], -1, true),
    1, 0, [Off, Hold(false), Spin], [5, 0, 0], Effect(5, false, {}, map[])))

  const JOIN9 := Shot([0, 0, 0, 0, 0, 1], Scene(
    View([0, 6, 1], [false, true, false], [false, false, true], [true, true, true], [1, 2], 2, false),
    1, 0, [Off, Hold(false), Spin], [5, 0, 0], Effect(5, false, {}, map[])))

  const JOIN10 := Shot([0, 0, 0, 0, 0, 1], Scene(
    View([0, 6, 1], [false, true, false], [false, false, false], [true, true, true], [1, 2], 2, false),
    1, 0, [Off, Hold(false), Seen(0)], [5, 0, 0], Effect(5, false, {}, map[])))

  lemma JoinCuts1()
    ensures Cut(JoinPlay(), OPEN13, Give(0), JOIN1)
  {
  }

  lemma JoinCuts2()
    ensures Cut(JoinPlay(), JOIN1, Enter(0, 0), JOIN2)
    ensures CutThrough(JoinPlay(), JOIN2, 0, false, JOIN3)
  {
  }

  lemma JoinCuts3()
    ensures Cut(JoinPlay(), JOIN3, Quit(0, 1), JOIN4)
  {
  }

  lemma JoinCuts4()
    ensures Cut(JoinPlay(), JOIN4, Give(0), JOIN5)
  {
  }

  lemma JoinCuts5()
    ensures Cut(JoinPlay(), JOIN5, Ask(1, 1), JOIN6)
    ensures CutThrough(JoinPlay(), JOIN6, 1, false, JOIN7)
  {
  }

  lemma JoinCuts6()
    ensures Cut(JoinPlay(), JOIN7, Tick(1, 5, 2), JOIN8)
  {
  }

  lemma JoinCuts7()
    ensures Cut(JoinPlay(), JOIN8, Ask(2, 2), JOIN9)
    ensures Cut(JoinPlay(), JOIN9, Look(2), JOIN10)
  {
  }

  lemma JoinRun1()
    ensures ShotReached(JoinPlay(), JOIN5, true)
  {
    PlaysCreate();
    OpenRun2(JoinPlay());
    JoinCuts1();
    CutReached(JoinPlay(), OPEN13, true, Give(0), JOIN1);
    JoinCuts2();
    CutReached(JoinPlay(), JOIN1, true, Enter(0, 0), JOIN2);
    ThroughReached(JoinPlay(), JOIN2, true, 0, false, JOIN3);
    JoinCuts3();
    CutReached(JoinPlay(), JOIN3, true, Quit(0, 1), JOIN4);
    JoinCuts4();
    CutReached(JoinPlay(), JOIN4, true, Give(0), JOIN5);
  }

  lemma JoinRun2()
    ensures ShotReached(JoinPlay(), JOIN10, true)
  {
    JoinRun1();
    JoinCuts5();
    CutReached(JoinPlay(), JOIN5, true, Ask(1, 1), JOIN6);
    ThroughReached(JoinPlay(), JOIN6, true, 1, false, JOIN7);
    JoinCuts6();
    CutReached(JoinPlay(), JOIN7, true, Tick(1, 5, 2), JOIN8);
    JoinCuts7();
    CutReached(JoinPlay(), JOIN8, true, Ask(2, 2), JOIN9);
    CutReached(JoinPlay(), JOIN9, true, Look(2), JOIN10);
  }

  // ---- what they show ----

  // a is enabled and harmful in w, and can lead to an acquisition by a thread that
  // is not the least.
  ghost predicate DoesHarm(w: World, a: Action) {
    CanAct(w, a) && !Harmless(w, a) && exists acts, x :: Breaks(Act(w, a), acts, x)
  }

  lemma SignalHarms(c: Process<int, int>)
    requires Good(c.w) && Looks(c, COND10.scene)
    ensures DoesHarm(c.w, Signal(2, 1))
  {
    var v := COND10.scene.v;
    LateCuts();
    CueAgrees(CondPlay(), c, COND10.scene, Post(2, 1));
    assert ShowsAt(c.w.g, v, 0) && ShowsAt(c.w.g, v, 1);
    assert c.w.phase[0].Spin? && c.w.g.status[0].lowestClock && Lower(c.w.g, 1, 0);
    HarmBreaksPromise(c.w, Signal(2, 1));
  }

  // A thread has been told but has not looked when another thread is activated
  // below it: it will read the counter after it has moved.
  lemma UnseenGrant()
    ensures exists acts :: HarmlessRun(Start(3), acts) && DoesHarm(AfterRun(Start(3), acts), Signal(2, 1))
  {
    CondRun2();
    var acts, c :| Staged(CondPlay(), COND10.log, COND10.scene, true, acts, c);
    SignalHarms(c);
    assert AfterRun(Start(3), acts) == c.w;
  }

  lemma JoinHarms(c: Process<int, int>)
    requires Good(c.w) && Looks(c, JOIN10.scene)
    ensures DoesHarm(c.w, JoinReturn(1, 0))
  {
    var v := JOIN10.scene.v;
    assert ShowsAt(c.w.g, v, 0) && ShowsAt(c.w.g, v, 2);
    assert Armed(c.w, 2) && Lower(c.w.g, 0, 2);
    HarmBreaksPromise(c.w, JoinReturn(1, 0));
  }

  // A thread has seen its grant when a parent rejoins below it: nothing moves the
  // counter.
  lemma JoinUndercuts()
    ensures exists acts :: HarmlessRun(Start(3), acts) && DoesHarm(AfterRun(Start(3), acts), JoinReturn(1, 0))
  {
    JoinRun2();
    var acts, c :| Staged(JoinPlay(), JOIN10.log, JOIN10.scene, true, acts, c);
    JoinHarms(c);
    assert AfterRun(Start(3), acts) == c.w;
  }

  lemma LateExecutes() returns (acts: seq<Action>)
    ensures Executes(CondPlay(), 3, 0, 0, acts) && Order(acts) == [0, 0, 0, 0, 1, 2, 0]
  {
    LateRun();
    var c;
    acts, c :| Staged(CondPlay(), [0, 0, 0, 0, 1, 2, 0], Passed(LATE2.scene, 0, false), false, acts, c);
  }

  lemma PromptExecutes() returns (acts: seq<Action>)
    ensures Executes(CondPlay(), 3, 0, 0, acts) && Order(acts) == [0, 0, 0, 0, 1, 2, 1]
    ensures HarmlessRun(Start(3), acts)
  {
    PromptRun();
    var c;
    acts, c :| Staged(CondPlay(), PROMPT5.log, PROMPT5.scene, true, acts, c);
  }

  // The schedule then depends on the interleaving: the same program has a
  // harmless run and another run that take the token in orders that part.
  lemma OrdersPart()
    ensures exists acts, bcts ::
              && Executes(CondPlay(), 3, 0, 0, acts)
              && Executes(CondPlay(), 3, 0, 0, bcts) && HarmlessRun(Start(3), bcts)
              && !(Order(acts) <= Order(bcts)) && !(Order(bcts) <= Order(acts))
  {
    var acts := LateExecutes();
    var bcts := PromptExecutes();
    assert Order(acts)[6] == 0 && Order(bcts)[6] == 1;
  }
}
