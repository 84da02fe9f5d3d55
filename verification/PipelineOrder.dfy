/** The lookup pipeline with one requester, and with one resolver, keeps the order of the lines. */
module PipelineOrder {
  import opened Pipeline

  /** The lines of the first k files that can be opened, one after the other. */
  function LinesInOrder(c: Config, k: nat): seq<string> {
    if k == 0 then []
    else if k > |c.names| || c.names[k - 1] == c.poison || c.open(c.names[k - 1]).None? then LinesInOrder(c, k - 1)
    else LinesInOrder(c, k - 1) + c.open(c.names[k - 1]).value
  }

  function Unlogged(r: Requester): seq<string> {
    match r
    case Reading(rest) => rest
    case Logging(line, rest) => [line] + rest
    case _ => []
  }

  function Unput(r: Requester): seq<string> {
    match r
    case Reading(rest) => rest
    case Logging(_, rest) => rest
    case _ => []
  }

  function InHand(r: Resolver): seq<string> { if r.Resolving? then [r.host] else [] }

  /** What main's pill adds to the host queue, until the resolver has taken it. */
  function PillQueued(c: Config, s: State): seq<string>
    requires WellShaped(c, s) && c.resolvers == 1
  {
    if PillsPut(c, s) > 0 && !s.ress[0].Away? then [c.poison] else []
  }

  predicate LoggedInOrder(c: Config, s: State)
    requires WellShaped(c, s) && c.requesters == 1
  {
    s.serviced + Unlogged(s.reqs[0]) == LinesInOrder(c, s.fetched)
  }

  predicate ResolvedInOrder(c: Config, s: State)
    requires WellShaped(c, s) && c.requesters == 1 && c.resolvers == 1
  {
    && Hosts(s.results) + InHand(s.ress[0]) + s.hosts + Unput(s.reqs[0])
       == LinesInOrder(c, s.fetched) + PillQueued(c, s)
    && (s.ress[0].Away? ==> s.hosts == [] && PillsPut(c, s) > 0)
  }

  lemma NextLines(c: Config, k: nat)
    requires k < FeedEnd(c)
    ensures LinesInOrder(c, k + 1) == LinesInOrder(c, k) + Content(c, Item(c, k))
  {
  }

  lemma {:induction false} OccursInOrder(c: Config, k: nat, h: string)
    requires k <= FeedEnd(c)
    ensures Occurs(LinesInOrder(c, k), h) == Lines(c, k, h)
  {
    hide LinesInOrder, Content, Item;
    if k > 0 {
      OccursInOrder(c, k - 1, h);
      NextLines(c, k - 1);
      OccursBoth(LinesInOrder(c, k - 1), Content(c, Item(c, k - 1)), h);
    } else {
      NoLinesYet(c);
    }
  }

  lemma NoLinesYet(c: Config)
    ensures LinesInOrder(c, 0) == []
  {
  }

  lemma {:induction false} OccursBoth(a: seq<string>, b: seq<string>, h: string)
    ensures Occurs(a + b, h) == Occurs(a, h) + Occurs(b, h)
  {
    if a == [] {
      assert a + b == b;
    } else {
      assert (a + b)[1..] == a[1..] + b;
      OccursBoth(a[1..], b, h);
    }
  }

  lemma FetchLogsInOrder(c: Config, s: State)
    requires c.requesters == 1 && Inv(c, s) && Enabled(c, s, Req(0)) && s.reqs[0].Fetching? && LoggedInOrder(c, s)
    ensures LoggedInOrder(c, RequesterStep(c, s, 0))
  {
    hide JoinsOk, PillsOk, ResultsOk, CountOk, LinesOk, FilesOk;
    FetchMeans(c, s, 0);
    assert s.serviced + [] == s.serviced;
  }

  lemma RequesterLogs(c: Config, s: State)
    requires WellShaped(c, s) && c.requesters == 1 && Enabled(c, s, Req(0)) && LoggedInOrder(c, s)
    requires !s.reqs[0].Fetching?
    ensures LoggedInOrder(c, RequesterStep(c, s, 0))
  {
    hide LinesInOrder, Terminal;
    if s.reqs[0].Logging? {
      var line, rest := s.reqs[0].line, s.reqs[0].rest;
      assert s.serviced + ([line] + rest) == s.serviced + [line] + rest;
    }
  }

  lemma OtherStepLogs(c: Config, s: State, a: Actor)
    requires WellShaped(c, s) && c.requesters == 1 && Enabled(c, s, a) && LoggedInOrder(c, s)
    requires a.Req? ==> !s.reqs[0].Fetching?
    ensures WellShaped(c, Step(c, s, a)) && LoggedInOrder(c, Step(c, s, a))
  {
    hide LinesInOrder, RequesterStep, Unlogged, PillsPut;
    StepShape(c, s, a);
    if a.Req? {
      RequesterLogs(c, s);
    }
  }

  lemma StepLogsInOrder(c: Config, s: State, a: Actor)
    requires c.requesters == 1 && Inv(c, s) && Enabled(c, s, a) && LoggedInOrder(c, s)
    ensures WellShaped(c, Step(c, s, a)) && LoggedInOrder(c, Step(c, s, a))
  {
    hide JoinsOk, PillsOk, ResultsOk, CountOk, LinesOk, FilesOk, LoggedInOrder, RequesterStep, ResolverStep;
    StepShape(c, s, a);
    if a.Req? && s.reqs[0].Fetching? {
      FetchLogsInOrder(c, s);
    } else {
      OtherStepLogs(c, s, a);
    }
  }

  lemma {:induction false} RunLogsInOrder(c: Config, s: State, sched: seq<Actor>)
    requires c.requesters == 1 && Inv(c, s) && LoggedInOrder(c, s) && RunFrom(c, s, sched)
    ensures LoggedInOrder(c, Run(c, s, sched))
    decreases |sched|
  {
    hide JoinsOk, FilesOk, PillsOk, ResultsOk, CountOk, LinesOk, Enabled, Step, LoggedInOrder;
    if sched != [] {
      StepKeepsInv(c, s, sched[0]);
      StepLogsInOrder(c, s, sched[0]);
      RunLogsInOrder(c, Step(c, s, sched[0]), sched[1..]);
    }
  }

  /** Without pill lines, no line is the pill. */
  lemma NoLineIsPill(c: Config, s: State)
    requires Inv(c, s) && PillLines(c) == 0
    ensures c.poison !in LinesInOrder(c, s.fetched)
  {
    hide JoinsOk, PillsOk, ResultsOk, CountOk, LinesOk;
    FetchedInRange(c, s);
    LinesGrow(c, s.fetched, Consumed(c), c.poison);
    OccursInOrder(c, s.fetched, c.poison);
    OccursIsMultiplicity(LinesInOrder(c, s.fetched), c.poison);
  }

  /** What the resolver takes next is the pill only if it is the last item. */
  lemma NextItem(done: seq<string>, hosts: seq<string>, unput: seq<string>, lines: seq<string>, pill: seq<string>,
                 poison: string)
    requires done + hosts + unput == lines + pill && hosts != [] && poison !in lines && (pill == [] || pill == [poison])
    ensures hosts[0] == poison <==> pill != [] && hosts == [poison] && unput == []
    ensures hosts[0] == poison ==> done == lines
  {
    var all := lines + pill;
    assert all[|done|] == hosts[0];
    assert |done| < |lines| ==> all[|done|] == lines[|done|];
    if hosts[0] == poison {
      assert |all| == |done| + |hosts| + |unput|;
      assert all[..|lines|] == lines && (done + hosts + unput)[..|done|] == done;
    }
  }

  lemma TakeInOrder(c: Config, s: State)
    requires c.requesters == 1 == c.resolvers && PillLines(c) == 0 && s.ress == [Taking]
    requires Inv(c, s) && Enabled(c, s, Res(0)) && ResolvedInOrder(c, s)
    ensures ResolvedInOrder(c, ResolverStep(c, s, 0))
  {
    hide JoinsOk, PillsOk, FilesOk, CountOk, LinesOk, ResultsOk, Lines, LinesInOrder, Hosts;
    var done, unput, lines := Hosts(s.results), Unput(s.reqs[0]), LinesInOrder(c, s.fetched);
    NoLineIsPill(c, s);
    assert done + [] == done;
    NextItem(done, s.hosts, unput, lines, PillQueued(c, s), c.poison);
    var s' := ResolverStep(c, s, 0);
    if s.hosts[0] == c.poison {
      assert Hosts(s'.results) + InHand(s'.ress[0]) + s'.hosts + unput == done;
    } else {
      assert done + s.hosts + unput == done + [s.hosts[0]] + s.hosts[1..] + unput;
    }
  }

  lemma ResolveInOrder(c: Config, s: State)
    requires c.requesters == 1 == c.resolvers && |s.ress| == 1 && s.ress[0].Resolving?
    requires Inv(c, s) && Enabled(c, s, Res(0)) && ResolvedInOrder(c, s)
    ensures ResolvedInOrder(c, ResolverStep(c, s, 0))
  {
    hide JoinsOk, PillsOk, FilesOk, CountOk, LinesOk, ResultsOk, LinesInOrder;
    var host := s.ress[0].host;
    assert Hosts(s.results + [(host, c.lookup(host))]) == Hosts(s.results) + [host];
    assert Hosts(s.results) + [host] + [] == Hosts(s.results) + [host];
  }

  lemma FetchInOrder(c: Config, s: State)
    requires c.requesters == 1 == c.resolvers && Inv(c, s) && Enabled(c, s, Req(0)) && ResolvedInOrder(c, s)
    requires s.reqs[0].Fetching?
    ensures ResolvedInOrder(c, RequesterStep(c, s, 0))
  {
    hide PillsOk, FilesOk, CountOk, LinesOk, ResultsOk, Hosts;
    NoPillsYet(c, s, 0);
    FetchMeans(c, s, 0);
    var out := Hosts(s.results) + InHand(s.ress[0]) + s.hosts;
    assert out + [] == out && LinesInOrder(c, s.fetched) + [] == LinesInOrder(c, s.fetched);
    assert LinesInOrder(c, s.fetched + 1) + [] == LinesInOrder(c, s.fetched + 1);
  }

  lemma PutInOrder(c: Config, s: State)
    requires c.requesters == 1 == c.resolvers && Inv(c, s) && Enabled(c, s, Req(0)) && ResolvedInOrder(c, s)
    requires !s.reqs[0].Fetching?
    ensures ResolvedInOrder(c, RequesterStep(c, s, 0))
  {
    hide PillsOk, FilesOk, CountOk, LinesOk, ResultsOk, Hosts, LinesInOrder;
    NoPillsYet(c, s, 0);
    if s.reqs[0].Reading? && s.reqs[0].rest != [] {
      var out, rest := Hosts(s.results) + InHand(s.ress[0]), s.reqs[0].rest;
      assert out + s.hosts + rest == out + (s.hosts + [rest[0]]) + rest[1..];
    }
  }

  lemma MainInOrder(c: Config, s: State)
    requires c.requesters == 1 == c.resolvers && Inv(c, s) && Enabled(c, s, Main) && ResolvedInOrder(c, s)
    ensures ResolvedInOrder(c, Step(c, s, Main))
  {
    hide PillsOk, FilesOk, CountOk, LinesOk, ResultsOk, Hosts, LinesInOrder;
    if s.main == JoinEnd(c) {
      assert s.reqs[0].Gone?;
      var out, lines := Hosts(s.results) + InHand(s.ress[0]), LinesInOrder(c, s.fetched);
      assert out + s.hosts + [] == lines + [];
      assert out + (s.hosts + [c.poison]) + [] == out + s.hosts + [] + [c.poison] == lines + [c.poison];
    }
  }

  lemma StepInOrder(c: Config, s: State, a: Actor)
    requires c.requesters == 1 == c.resolvers && PillLines(c) == 0
    requires Inv(c, s) && Enabled(c, s, a) && ResolvedInOrder(c, s)
    ensures WellShaped(c, Step(c, s, a)) && ResolvedInOrder(c, Step(c, s, a))
  {
    hide JoinsOk, PillsOk, FilesOk, CountOk, LinesOk, ResultsOk, ResolvedInOrder, RequesterStep, ResolverStep,
         PillLines;
    StepShape(c, s, a);
    match a
    case Main => MainInOrder(c, s);
    case Req(t) =>
      if s.reqs[0].Fetching? {
        FetchInOrder(c, s);
      } else {
        PutInOrder(c, s);
      }
    case Res(t) =>
      if s.ress[0].Taking? {
        assert s.ress == [Taking];
        TakeInOrder(c, s);
      } else {
        ResolveInOrder(c, s);
      }
  }

  lemma {:induction false} RunInOrder(c: Config, s: State, sched: seq<Actor>)
    requires c.requesters == 1 == c.resolvers && PillLines(c) == 0
    requires Inv(c, s) && ResolvedInOrder(c, s) && RunFrom(c, s, sched)
    ensures ResolvedInOrder(c, Run(c, s, sched))
    decreases |sched|
  {
    hide JoinsOk, FilesOk, PillsOk, ResultsOk, CountOk, LinesOk, Enabled, Step, ResolvedInOrder, PillLines;
    if sched != [] {
      StepKeepsInv(c, s, sched[0]);
      StepInOrder(c, s, sched[0]);
      RunInOrder(c, Step(c, s, sched[0]), sched[1..]);
    }
  }

  /** With one requester the lines are logged as serviced in the order of the files and of the
      lines in them, on every schedule and whatever the number of resolvers; the log of an
      unfinished run is a beginning of that. */
  lemma OneRequesterKeepsOrder(c: Config, sched: seq<Actor>)
    requires c.requesters == 1 && RunFrom(c, Init(c), sched)
    ensures var s := Run(c, Init(c), sched);
      && s.serviced <= LinesInOrder(c, s.fetched)
      && (s.main == End(c) ==> s.serviced == LinesInOrder(c, Consumed(c)))
  {
    hide JoinsOk, PillsOk, ResultsOk, CountOk, LinesOk, LinesInOrder, FilesOk;
    InitOk(c);
    StartsInOrder(c);
    RunLogsInOrder(c, Init(c), sched);
    RunLaws(c, Init(c), sched);
    var s := Run(c, Init(c), sched);
    if s.main == End(c) {
      EndOfOne(c, s);
    }
  }

  lemma EndOfOne(c: Config, s: State)
    requires c.requesters == 1 && Inv(c, s) && s.main == End(c)
    ensures s.fetched == Consumed(c) && s.reqs[0].Gone? && (c.resolvers == 1 ==> s.ress[0].Away?)
  {
    hide PillsOk, ResultsOk, CountOk, LinesOk;
    AtEnd(c, s);
  }

  /** With one resolver too, and no line that is the pill, results come in that order as well. */
  lemma OneOfEachKeepsOrder(c: Config, sched: seq<Actor>)
    requires c.requesters == 1 == c.resolvers && PillLines(c) == 0 && RunFrom(c, Init(c), sched)
    ensures var s := Run(c, Init(c), sched);
      && Hosts(s.results) <= LinesInOrder(c, s.fetched)
      && (s.main == End(c) ==> Hosts(s.results) == LinesInOrder(c, Consumed(c)))
  {
    hide JoinsOk, PillsOk, ResultsOk, CountOk, LinesOk, LinesInOrder, FilesOk, PillLines, ResolvedInOrder, Hosts;
    InitOk(c);
    StartsInOrder(c);
    RunInOrder(c, Init(c), sched);
    RunLaws(c, Init(c), sched);
    var s := Run(c, Init(c), sched);
    ResultsBegin(c, s);
    if s.main == End(c) {
      EndOfOne(c, s);
      AllResolved(c, s);
    }
  }

  lemma StartsInOrder(c: Config)
    requires c.requesters == 1
    ensures LoggedInOrder(c, Init(c)) && (c.resolvers == 1 ==> ResolvedInOrder(c, Init(c)))
  {
  }

  lemma ResultsBegin(c: Config, s: State)
    requires c.requesters == 1 == c.resolvers && Inv(c, s) && ResolvedInOrder(c, s)
    ensures Hosts(s.results) <= LinesInOrder(c, s.fetched)
  {
    hide JoinsOk, FilesOk, PillsOk, CountOk, LinesOk, LinesInOrder;
    var done, rest := Hosts(s.results), InHand(s.ress[0]) + s.hosts + Unput(s.reqs[0]);
    assert done + rest == Hosts(s.results) + InHand(s.ress[0]) + s.hosts + Unput(s.reqs[0]);
    BeginsLines(done, rest, LinesInOrder(c, s.fetched), PillQueued(c, s), c.poison);
  }

  lemma BeginsLines(done: seq<string>, rest: seq<string>, lines: seq<string>, pill: seq<string>, poison: string)
    requires done + rest == lines + pill && poison !in done && (pill == [] || pill == [poison])
    ensures done <= lines
  {
    var all := lines + pill;
    assert all[..|done|] == done && all[..|lines|] == lines;
    assert |all| > |lines| ==> all[|lines|] == poison;
    assert forall k :: 0 <= k < |done| ==> all[k] == done[k];
  }

  lemma AllResolved(c: Config, s: State)
    requires c.requesters == 1 == c.resolvers && WellShaped(c, s) && ResolvedInOrder(c, s)
    requires s.reqs[0].Gone? && s.ress[0].Away?
    ensures Hosts(s.results) == LinesInOrder(c, s.fetched)
  {
    hide LinesInOrder, Hosts;
    assert Hosts(s.results) + [] + [] + [] == Hosts(s.results);
  }
}
