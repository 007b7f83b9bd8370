/**
  The API server seen from a pass: one method per read, one method for all
  writes, and a script that decides what happens around each call.

  Every call takes the next tick of the script. The tick says whether the call is
  answered, refused, or carried out with its answer lost, and which moves the
  environment makes before the operator goes on. When the script has run out the
  process has crashed: later calls do nothing and return an error, so the world
  at the end of the pass is the world at the crash.
 */
module Api {
  import opened Types
  import opened Protocol
  import opened Rely

  datatype Reply = Ok | NotFound | AlreadyExists | OtherError

  datatype Fate = Answered | Refused | AnswerLost

  datatype Tick = Tick(fate: Fate, moves: seq<Move>, expired: bool)

  // A PodDisruptionBudget: its matchLabels, if it has a selector; whether they
  // are well-formed; and the disruptions it allows.
  datatype Pdb = Pdb(matchLabels: Option<Labels>, wellFormed: bool, allowed: int)

  // What an object that is already there, or missing, makes the server say.
  function Refusal(c: Call): Reply {
    match c
    case CreateClaim(_, _) => AlreadyExists
    case CreateBackup(_) => AlreadyExists
    case CreateSts(_) => AlreadyExists
    case CreatePod(_, _) => AlreadyExists
    case _ => NotFound
  }

  // What a write and its reply say about the world before and after.
  ghost predicate Effect(w: World, c: Call, e: Reply, w': World) {
    && (e == Ok ==> CanCall(w, c) && Relied(Called(w, c), w'))
    && (e != Ok ==> Relied(w, w') || (CanCall(w, c) && Relied(Called(w, c), w')))
    && (e == NotFound || e == AlreadyExists ==> !CanCall(w, c) && e == Refusal(c) && Relied(w, w'))
  }

  lemma CalledFixed(w: World, c: Call)
    requires CanCall(w, c)
    ensures Called(w, c).spec == w.spec && Called(w, c).past == w.past
    ensures forall u :: Mig(u) in Called(w, c).pods ==> Mig(u) in w.pods || (c.CreatePod? && u == c.unit)
  {
  }

  lemma ReliedFixed(w: World, w': World)
    requires Relied(w, w')
    ensures w'.spec == w.spec && w'.past == w.past
    ensures forall u :: Mig(u) in w'.pods ==> Mig(u) in w.pods
  {
    hide KeepsClaims, KeepsCopies;
    forall u | Mig(u) !in w.pods
      ensures Mig(u) !in w'.pods
    {
      assert NoMig(w, u);
    }
  }

  // The worlds differ in the record of the passes begun, at most.
  ghost predicate SameButBare(w: World, w': World) {
    w' == w.(book := w.book.(bare := w'.book.bare))
  }

  // A pass that begins at a recorded unit without a StatefulSet is on record.
  ghost predicate Began(w: World) {
    AtCompleted(w) && w.sts == None ==> Cursor(w.vr.value.status).value in w.book.bare
  }

  lemma PassBegun(w: World)
    ensures Guard(w, BeginPass)
    ensures SameButBare(w, Called(w, BeginPass)) && Began(Called(w, BeginPass))
  {
    hide CompletedAt;
  }

  // The bound of the loops that wait for a claim to be gone.
  const POLLS := 60

  class Cluster {
    var w: World
    var script: seq<Tick>
    var crashed: bool
    const pdbs: seq<Pdb>
    const lateClasses: set<string>

    ghost const start: World
    ghost var log: seq<Action>

    // No call of this pass failed, no wait ran out, no migrator was lost.
    ghost var smooth: bool

    // The writes this pass has asked for, in order, whatever became of them.
    ghost var asks: seq<Call>

    // Units whose migrator existed during this pass, and how many reads in a row
    // found the same claim.
    ghost var had: set<Unit>
    ghost var polled: Option<ClaimKey>
    ghost var polls: nat

    ghost predicate Valid()
      reads this
    {
      && Run(start, log, w) && w.spec == start.spec && w.past == start.past
      && (crashed ==> !smooth)
      && (forall u :: Mig(u) in w.pods ==> u in had)
    }

    // The next call will be answered.
    ghost predicate Answers()
      reads this
    {
      !crashed && script != [] && script[0].fate == Answered
    }

    // The next look at the clock finds the deadline passed, or the process crashed.
    ghost predicate Expires()
      reads this
    {
      crashed || script == [] || script[0].expired
    }

    // The world after the first i actions of the log.
    ghost function Past(i: nat): World
      reads this
      requires i <= |log|
    {
      Exec(start, log[..i])
    }

    constructor (w: World, pdbs: seq<Pdb>, lateClasses: set<string>)
      requires Start(w)
      ensures Valid() && this.w == w && start == w && log == [] && crashed
      ensures this.pdbs == pdbs && this.lateClasses == lateClasses
    {
      this.w := w;
      this.script := [];
      this.crashed := true;
      this.pdbs := pdbs;
      this.lateClasses := lateClasses;
      this.start := w;
      this.log := [];
      this.smooth := false;
      this.asks := [];
      this.had := {};
      this.polled := None;
      this.polls := 0;
    }

    // The units that have a migrator pod.
    ghost function Migrators(w: World): (units: set<Unit>)
      ensures forall u :: Mig(u) in w.pods ==> u in units
    {
      assert forall u :: Mig(u) in w.pods ==> Mig(u).unit == u;
      set p | p in w.pods && p.Mig? :: p.unit
    }

    // A new pass, with its own script.
    method Begin(script: seq<Tick>)
      requires Valid()
      modifies this
      ensures Valid() && SameButBare(old(w), w) && Began(w)
      ensures w == Called(old(w), BeginPass) && log == old(log) + [Op(BeginPass)]
      ensures this.script == script && !crashed && smooth && asks == []
    {
      this.script := script;
      crashed := false;
      smooth := true;
      asks := [];
      had := Migrators(w);
      polled, polls := None, 0;
      hide Run, Guard, Called, SameButBare, Began, CanCall;
      PassBegun(w);
      Commit(BeginPass);
    }

    // The next tick, or a crash.
    method Take() returns (t: Tick)
      modifies this`script, this`crashed, this`smooth
      ensures crashed <==> old(crashed) || old(script) == []
      ensures crashed ==> t.moves == [] && t.fate == Refused && !smooth && script == old(script)
      ensures !crashed ==> |script| < |old(script)|
      ensures |old(script)| <= |script| + 1
      ensures smooth ==> old(smooth) && t.fate == Answered
      ensures t.fate == Answered <==> old(Answers())
      ensures crashed || t.expired <==> old(Expires())
    {
      if crashed || script == [] {
        crashed := true;
        smooth := false;
        t := Tick(Refused, [], true);
      } else {
        t := script[0];
        script := script[1..];
        smooth := smooth && t.fate == Answered;
      }
    }

    method Commit(c: Call)
      requires Valid() && Guard(w, c)
      modifies this`w, this`log, this`had
      ensures Valid() && w == Called(old(w), c)
      ensures log == old(log) + [Op(c)]
      ensures had == if c.CreatePod? then old(had) + {c.unit} else old(had)
    {
      assert CanCall(w, c);
      CalledFixed(w, c);
      hide Run, Guard, CanCall, Called;
      if c.CreatePod? {
        had := had + {c.unit};
      }
      RunExtends(start, log, w, Op(c));
      w := Called(w, c);
      log := log + [Op(c)];
    }

    // The environment makes those of the moves that are possible.
    method Settle(moves: seq<Move>)
      requires Valid()
      modifies this`w, this`log
      ensures Valid() && Relied(old(w), w)
      ensures old(log) <= log
    {
      hide Run, CanMove, Moved, Inv, Relied;
      RelyReflexive(w);
      for i := 0 to |moves|
        invariant Valid() && Relied(old(w), w) && old(log) <= log
      {
        if CanMove(w, moves[i]) {
          InvRun(start, log, w);
          MoveRelied(w, moves[i]);
          RunExtends(start, log, w, Env(moves[i]));
          RelyTransitive(old(w), w, Moved(w, moves[i]));
          ReliedFixed(w, Moved(w, moves[i]));
          w := Moved(w, moves[i]);
          log := log + [Env(moves[i])];
        }
      }
    }

    // A write.
    method Issue(c: Call) returns (e: Reply)
      requires Valid() && (CanCall(w, c) ==> Guard(w, c))
      modifies this
      ensures Valid() && old(log) <= log
      ensures Effect(old(w), c, e, w)
      ensures asks == if crashed then old(asks) else old(asks) + [c]
      ensures e == Ok ==> Op(c) in log[|old(log)|..]
      ensures e == Ok && c.CreatePod? ==> c.unit in had
      ensures smooth ==> old(smooth) && (e == Ok || e == Refusal(c))
      ensures |script| < |old(script)| || crashed
      ensures old(crashed) ==> crashed
    {
      hide Run, CanCall, Called, Guard, Relied;
      ghost var before := log;
      var t := Take();
      if !crashed {
        asks := asks + [c];
      }
      if t.fate == Refused {
        e := OtherError;
        Settle(t.moves);
      } else {
        if CanCall(w, c) {
          Commit(c);
          assert log[|before|] == Op(c);
          e := if t.fate == Answered then Ok else OtherError;
        } else {
          e := if t.fate == Answered then Refusal(c) else OtherError;
        }
        ghost var made := log;
        Settle(t.moves);
        assert |made| > |before| ==> log[|before|] == made[|before|];
      }
    }

    // A read: the server's answer, and the world after the environment went on.
    method Read() returns (answered: bool)
      requires Valid()
      modifies this
      ensures Valid() && Relied(old(w), w)
      ensures smooth ==> old(smooth) && answered
      ensures answered <==> old(Answers())
      ensures |old(script)| <= |script| + 1
      ensures old(log) <= log && asks == old(asks)
      ensures |script| < |old(script)| || crashed
      ensures crashed && !old(crashed) ==> !answered
      ensures old(crashed) ==> crashed && !answered
      ensures had == old(had) && polled == old(polled) && polls == old(polls)
    {
      hide Run, Relied;
      var t := Take();
      answered := t.fate == Answered;
      Settle(t.moves);
    }

    method GetClaim(k: ClaimKey) returns (e: Reply, claim: Option<Claim>)
      requires Valid()
      modifies this
      ensures Valid() && Relied(old(w), w) && old(log) <= log && asks == old(asks)
      ensures e == Ok ==> k in old(w).claims && claim == Some(old(w).claims[k])
      ensures e == NotFound ==> k !in old(w).claims
      ensures e != AlreadyExists
      ensures smooth ==> old(smooth) && e != OtherError
      ensures |old(script)| <= |script| + 1
      ensures |script| < |old(script)| || crashed
      ensures crashed ==> e == OtherError
      ensures e == Ok ==> polled == Some(k) && polls == if old(polled) == Some(k) then old(polls) + 1 else 1
    {
      hide Run, Relied;
      claim := if k in w.claims then Some(w.claims[k]) else None;
      var answered := Read();
      e := if !answered then OtherError else if claim.Some? then Ok else NotFound;
      polls := if e != Ok then 0 else if polled == Some(k) then polls + 1 else 1;
      polled := if e == Ok then Some(k) else None;
    }

    method GetPv(n: PvName) returns (e: Reply, pv: Option<Pv>)
      requires Valid()
      modifies this
      ensures Valid() && Relied(old(w), w) && old(log) <= log && asks == old(asks)
      ensures e == Ok ==> n in old(w).pvs && pv == Some(old(w).pvs[n])
      ensures e == NotFound ==> n !in old(w).pvs
      ensures e != AlreadyExists
      ensures smooth ==> old(smooth) && e != OtherError
    {
      hide Run, Relied;
      pv := if n in w.pvs then Some(w.pvs[n]) else None;
      var answered := Read();
      e := if !answered then OtherError else if pv.Some? then Ok else NotFound;
    }

    method GetPod(p: PodKey) returns (e: Reply, pod: Option<Pod>)
      requires Valid()
      modifies this
      ensures Valid() && Relied(old(w), w) && old(log) <= log && asks == old(asks)
      ensures e == Ok ==> p in old(w).pods && pod == Some(old(w).pods[p])
      ensures e == NotFound ==> p !in old(w).pods
      ensures e != AlreadyExists
      ensures smooth ==> old(smooth) && e != OtherError
      ensures e != OtherError <==> old(Answers())
      ensures |old(script)| <= |script| + 1
      ensures |script| < |old(script)| || crashed
      ensures crashed ==> e == OtherError
      ensures had == old(had)
    {
      hide Run, Relied;
      pod := if p in w.pods then Some(w.pods[p]) else None;
      var answered := Read();
      e := if !answered then OtherError else if pod.Some? then Ok else NotFound;
    }

    method GetSts() returns (e: Reply, sts: Option<Sts>)
      requires Valid()
      modifies this
      ensures Valid() && Relied(old(w), w) && old(log) <= log && asks == old(asks)
      ensures e == Ok ==> sts.Some? && sts == old(w).sts
      ensures e == NotFound ==> old(w).sts == None
      ensures e != AlreadyExists
      ensures smooth ==> old(smooth) && e != OtherError
    {
      hide Run, Relied;
      sts := w.sts;
      var answered := Read();
      e := if !answered then OtherError else if sts.Some? then Ok else NotFound;
    }

    method GetBackup() returns (e: Reply, sts: Option<Sts>)
      requires Valid()
      modifies this
      ensures Valid() && Relied(old(w), w) && old(log) <= log && asks == old(asks)
      ensures e == Ok ==> sts.Some? && sts == old(w).backup
      ensures e == NotFound ==> old(w).backup == None
      ensures e != AlreadyExists
      ensures smooth ==> old(smooth) && e != OtherError
    {
      hide Run, Relied;
      sts := w.backup;
      var answered := Read();
      e := if !answered then OtherError else if sts.Some? then Ok else NotFound;
    }

    method GetVr() returns (e: Reply, vr: Option<Vr>)
      requires Valid()
      modifies this
      ensures Valid() && Relied(old(w), w) && old(log) <= log && asks == old(asks)
      ensures e == Ok ==> vr.Some? && vr == old(w).vr
      ensures e == NotFound ==> old(w).vr == None
      ensures e != AlreadyExists
      ensures smooth ==> old(smooth) && e != OtherError
    {
      hide Run, Relied;
      vr := w.vr;
      var answered := Read();
      e := if !answered then OtherError else if vr.Some? then Ok else NotFound;
    }

    // Whether the storage class waits for a first consumer.
    method GetBindingMode(storageClass: string) returns (e: Reply, late: bool)
      requires Valid()
      modifies this
      ensures Valid() && Relied(old(w), w) && old(log) <= log && asks == old(asks)
      ensures e == Ok ==> late == (storageClass in lateClasses)
      ensures smooth ==> old(smooth) && e == Ok
    {
      hide Run, Relied;
      var answered := Read();
      e := if answered then Ok else OtherError;
      late := storageClass in lateClasses;
    }

    method ListPdbs() returns (e: Reply, items: seq<Pdb>)
      requires Valid()
      modifies this
      ensures Valid() && Relied(old(w), w) && old(log) <= log && asks == old(asks)
      ensures e == Ok ==> items == pdbs
      ensures smooth ==> old(smooth) && e == Ok
    {
      hide Run, Relied;
      var answered := Read();
      e := if answered then Ok else OtherError;
      items := pdbs;
    }

    // The claims, or pods, that carry the migration label of this resource.
    method ListClaims() returns (e: Reply, items: set<ClaimKey>)
      requires Valid()
      modifies this
      ensures Valid() && Relied(old(w), w) && old(log) <= log && asks == old(asks)
      ensures e == Ok ==> items == set k | k in old(w).claims && Owned(old(w).spec, old(w).claims[k].labels)
      ensures e == Ok <==> old(Answers())
      ensures smooth ==> old(smooth) && e == Ok
    {
      hide Run, Relied;
      items := set k | k in w.claims && Owned(w.spec, w.claims[k].labels);
      var answered := Read();
      e := if answered then Ok else OtherError;
    }

    method ListPods() returns (e: Reply, items: set<PodKey>)
      requires Valid()
      modifies this
      ensures Valid() && Relied(old(w), w) && old(log) <= log && asks == old(asks)
      ensures e == Ok ==> items == set p | p in old(w).pods && Owned(old(w).spec, old(w).pods[p].labels)
      ensures e == Ok <==> old(Answers())
      ensures smooth ==> old(smooth) && e == Ok
    {
      hide Run, Relied;
      items := set p | p in w.pods && Owned(w.spec, w.pods[p].labels);
      var answered := Read();
      e := if answered then Ok else OtherError;
    }

    // Whether the deadline of a wait has passed; a passed deadline is not smooth.
    method Deadline() returns (over: bool)
      modifies this`script, this`crashed, this`smooth
      ensures smooth ==> old(smooth) && !over
      ensures over <==> old(Expires())
      ensures |old(script)| <= |script| + 1
      ensures |script| < |old(script)| || crashed
      ensures crashed ==> over
      ensures old(crashed) ==> crashed
    {
      var t := Take();
      over := crashed || t.expired;
      smooth := smooth && !over;
    }

    // A wait for the end of a claim ran out: POLLS reads in a row found it.
    ghost method GiveUp(k: ClaimKey)
      requires polled == Some(k) && polls >= POLLS
      modifies this`smooth
      ensures !smooth
    {
      smooth := false;
    }

    // A migrator of this pass has failed or vanished.
    ghost method LoseMigrator(u: Unit)
      requires u in had && MigLost(w, u)
      modifies this`smooth
      ensures !smooth
    {
      smooth := false;
    }
  }
}
