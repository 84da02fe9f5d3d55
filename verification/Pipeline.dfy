/** Assignment 6: a two-stage lookup of host names, shut down by poison pills. */
module Pipeline {
  // Requester threads read host names out of files, resolver threads look them up. The two
  // shared arrays are bounded blocking FIFO queues of the same capacity; a put or a get is
  // one atomic step, enabled when there is room or an item. Main, each requester and each
  // resolver have one next step at a time, so a schedule is a sequence of actors.

  import opened Sums

  /** A file that cannot be opened has no content; one that can is a sequence of lines. */
  datatype Config = Config(
    names: seq<string>, open: string -> Option<seq<string>>, lookup: string -> string,
    poison: string, requesters: nat, resolvers: nat, capacity: nat)

  datatype Requester =
    | Fetching
    | Reading(rest: seq<string>)
    | Logging(line: string, rest: seq<string>)  // has put `line`, logs it next
    | Gone

  datatype Resolver = Taking | Resolving(host: string) | Away

  /** `main` is main's position in its four loops; `fetched` counts the items ever taken
      out of `files`. */
  datatype State = State(
    main: nat, files: seq<string>, hosts: seq<string>,
    reqs: seq<Requester>, ress: seq<Resolver>,
    filesBy: seq<nat>, hostsBy: seq<nat>,
    serviced: seq<string>, results: seq<(string, string)>, fetched: nat)

  datatype Actor = Main | Req(t: nat) | Res(t: nat)

  /** What main puts into the file queue: the names, then one pill per requester. */
  function Item(c: Config, i: nat): string { if i < |c.names| then c.names[i] else c.poison }

  function FeedEnd(c: Config): nat { |c.names| + c.requesters }
  function JoinEnd(c: Config): nat { FeedEnd(c) + c.requesters }
  function PillEnd(c: Config): nat { JoinEnd(c) + c.resolvers }
  function End(c: Config): nat { PillEnd(c) + c.resolvers }

  function Init(c: Config): (s: State)
    ensures WellShaped(c, s)
  {
    State(0, [], [], seq(c.requesters, i => Fetching), seq(c.resolvers, i => Taking),
          seq(c.requesters, i => 0), seq(c.resolvers, i => 0), [], [], 0)
  }

  /** An item that ends the requester that takes it: a pill, or a file that does not open. */
  predicate Terminal(c: Config, item: string) {
    item == c.poison || c.open(item).None?
  }

  function Content(c: Config, item: string): seq<string> {
    if Terminal(c, item) then [] else c.open(item).value
  }

  predicate WellShaped(c: Config, s: State) {
    && |s.reqs| == |s.filesBy| == c.requesters
    && |s.ress| == |s.hostsBy| == c.resolvers
  }

  predicate Enabled(c: Config, s: State, a: Actor)
    requires WellShaped(c, s)
  {
    match a
    case Main =>
      if s.main < FeedEnd(c) then |s.files| < c.capacity
      else if s.main < JoinEnd(c) then s.reqs[s.main - FeedEnd(c)].Gone?
      else if s.main < PillEnd(c) then |s.hosts| < c.capacity
      else s.main < End(c) && s.ress[s.main - PillEnd(c)].Away?
    case Req(t) =>
      && t < c.requesters
      && (match s.reqs[t]
          case Fetching => s.files != []
          case Reading(rest) => rest == [] || |s.hosts| < c.capacity
          case Logging(_, _) => true
          case Gone => false)
    case Res(t) =>
      && t < c.resolvers
      && (match s.ress[t]
          case Taking => s.hosts != []
          case Resolving(_) => true
          case Away => false)
  }

  function Step(c: Config, s: State, a: Actor): State
    requires WellShaped(c, s) && Enabled(c, s, a)
  {
    match a
    case Main =>
      if s.main < FeedEnd(c) then s.(main := s.main + 1, files := s.files + [Item(c, s.main)])
      else if s.main < JoinEnd(c) then s.(main := s.main + 1)
      else if s.main < PillEnd(c) then s.(main := s.main + 1, hosts := s.hosts + [c.poison])
      else s.(main := s.main + 1)
    case Req(t) => RequesterStep(c, s, t)
    case Res(t) => ResolverStep(c, s, t)
  }

  function RequesterStep(c: Config, s: State, t: nat): State
    requires WellShaped(c, s) && Enabled(c, s, Req(t))
  {
    match s.reqs[t]
    case Fetching =>
      var item := s.files[0];
      s.(files := s.files[1..], fetched := s.fetched + 1,
         reqs := s.reqs[t := if Terminal(c, item) then Gone else Reading(c.open(item).value)])
    case Reading(rest) =>
      if rest == []
      then s.(filesBy := s.filesBy[t := s.filesBy[t] + 1], reqs := s.reqs[t := Fetching])
      else s.(hosts := s.hosts + [rest[0]], reqs := s.reqs[t := Logging(rest[0], rest[1..])])
    case Logging(line, rest) =>
      s.(serviced := s.serviced + [line], reqs := s.reqs[t := Reading(rest)])
  }

  function ResolverStep(c: Config, s: State, t: nat): State
    requires WellShaped(c, s) && Enabled(c, s, Res(t))
  {
    match s.ress[t]
    case Taking =>
      var item := s.hosts[0];
      s.(hosts := s.hosts[1..],
         ress := s.ress[t := if item == c.poison then Away else Resolving(item)])
    case Resolving(host) =>
      s.(results := s.results + [(host, c.lookup(host))],
         hostsBy := s.hostsBy[t := s.hostsBy[t] + 1], ress := s.ress[t := Taking])
  }

  // ---- what is fixed before the run starts

  /** Among the first k items, how many end a requester. */
  function Terminals(c: Config, k: nat): nat
    requires k <= FeedEnd(c)
  {
    if k == 0 then 0 else Terminals(c, k - 1) + if Terminal(c, Item(c, k - 1)) then 1 else 0
  }

  function Occurs(s: seq<string>, h: string): nat {
    if s == [] then 0 else Occurs(s[1..], h) + if s[0] == h then 1 else 0
  }

  lemma {:induction false} OccursLast(s: seq<string>, x: string, h: string)
    ensures Occurs(s + [x], h) == Occurs(s, h) + if x == h then 1 else 0
  {
    if s == [] {
      assert [] + [x] == [x];
    } else {
      assert (s + [x])[1..] == s[1..] + [x];
      OccursLast(s[1..], x, h);
    }
  }

  lemma {:induction false} OccursIsMultiplicity(s: seq<string>, h: string)
    ensures Occurs(s, h) == multiset(s)[h]
  {
    if s != [] {
      assert s == [s[0]] + s[1..];
      OccursIsMultiplicity(s[1..], h);
    }
  }

  /** How often h is a line of the files among the first k items. */
  function Lines(c: Config, k: nat, h: string): nat
    requires k <= FeedEnd(c)
  {
    if k == 0 then 0 else Lines(c, k - 1, h) + Occurs(Content(c, Item(c, k - 1)), h)
  }

  lemma {:induction false} TerminalsOfPills(c: Config, j: nat)
    requires j <= c.requesters
    ensures Terminals(c, |c.names| + j) == Terminals(c, |c.names|) + j
  {
    if j > 0 {
      TerminalsOfPills(c, j - 1);
    }
  }

  function FirstWith(c: Config, k: nat): (r: nat)
    requires k <= FeedEnd(c) && forall i :: 0 <= i < k ==> Terminals(c, i) < c.requesters
    ensures r <= FeedEnd(c) && Terminals(c, r) >= c.requesters
    ensures forall i :: 0 <= i < r ==> Terminals(c, i) < c.requesters
    decreases FeedEnd(c) - k
  {
    if Terminals(c, k) >= c.requesters then k
    else
      TerminalsOfPills(c, c.requesters);
      FirstWith(c, k + 1)
  }

  /** The items the requesters take before the last of them is gone, and those they leave. */
  function Consumed(c: Config): nat { FirstWith(c, 0) }

  function Unread(c: Config): nat { FeedEnd(c) - Consumed(c) }

  /** How many lines the files among the first k items have. */
  function TotalLines(c: Config, k: nat): nat
    requires k <= FeedEnd(c)
  {
    if k == 0 then 0 else TotalLines(c, k - 1) + |Content(c, Item(c, k - 1))|
  }

  /** How many of the lines that the requesters read are the pill. */
  function PillLines(c: Config): nat { Lines(c, Consumed(c), c.poison) }

  lemma {:induction false} LinesGrow(c: Config, i: nat, j: nat, h: string)
    requires i <= j <= FeedEnd(c)
    ensures Lines(c, i, h) <= Lines(c, j, h) && TotalLines(c, i) <= TotalLines(c, j)
  {
    if i < j {
      LinesGrow(c, i, j - 1, h);
    }
  }

  // ---- the invariant

  function IsGone(r: Requester): int { if r.Gone? then 1 else 0 }
  function IsBusy(r: Requester): int { if r.Reading? || r.Logging? then 1 else 0 }
  function IsAway(r: Resolver): int { if r.Away? then 1 else 0 }
  function Count(n: nat): int { n }

  /** How often h is among the lines a requester has read and not yet logged. */
  function Unlogged(r: Requester, h: string): nat {
    match r
    case Reading(rest) => Occurs(rest, h)
    case Logging(line, rest) => Occurs(rest, h) + if line == h then 1 else 0
    case _ => 0
  }

  function Unput(r: Requester, h: string): nat {
    match r
    case Reading(rest) => Occurs(rest, h)
    case Logging(_, rest) => Occurs(rest, h)
    case _ => 0
  }

  function UnputLines(r: Requester): int {
    match r
    case Reading(rest) => |rest|
    case Logging(_, rest) => |rest|
    case _ => 0
  }

  function InHand(r: Resolver, h: string): nat { if r == Resolving(h) then 1 else 0 }

  function UnloggedOf(h: string): Requester -> int { r => Unlogged(r, h) }
  function UnputOf(h: string): Requester -> int { r => Unput(r, h) }
  function InHandOf(h: string): Resolver -> int { r => InHand(r, h) }

  function Hosts(results: seq<(string, string)>): seq<string> {
    seq(|results|, i requires 0 <= i < |results| => results[i].0)
  }

  function Min(a: int, b: int): int { if a < b then a else b }
  function Fed(c: Config, s: State): nat { Min(s.main, FeedEnd(c)) }

  function PillsPut(c: Config, s: State): nat {
    if s.main <= JoinEnd(c) then 0 else Min(s.main - JoinEnd(c), c.resolvers)
  }

  function PillsQueued(c: Config, s: State): int { PillsPut(c, s) - SumOf(s.ress, IsAway) }

  predicate FilesOk(c: Config, s: State) {
    && s.fetched <= Fed(c, s)
    && (forall k :: 0 <= k < s.fetched ==> Terminals(c, k) < c.requesters)
    && |s.files| == Fed(c, s) - s.fetched <= c.capacity
    && (forall i :: 0 <= i < |s.files| ==> s.files[i] == Item(c, s.fetched + i))
    && SumOf(s.reqs, IsGone) == Terminals(c, s.fetched)
    && SumOf(s.filesBy, Count) + SumOf(s.reqs, IsBusy) == s.fetched - Terminals(c, s.fetched)
  }

  /** Each line read is logged or still in its requester; it is put or still in its
      requester; and once put it is queued, in a resolver's hands, or resolved. */
  predicate LinesOk(c: Config, s: State, h: string)
    requires s.fetched <= FeedEnd(c)
  {
    && Lines(c, s.fetched, h) == Occurs(s.serviced, h) + SumOf(s.reqs, UnloggedOf(h))
    && Lines(c, s.fetched, h) + (if h == c.poison then PillsQueued(c, s) else 0)
         == SumOf(s.reqs, UnputOf(h)) + Occurs(s.hosts, h)
          + SumOf(s.ress, InHandOf(h)) + Occurs(Hosts(s.results), h)
  }

  /** The same count for all lines together. */
  predicate CountOk(c: Config, s: State)
    requires s.fetched <= FeedEnd(c)
  {
    TotalLines(c, s.fetched) + PillsPut(c, s)
      == SumOf(s.reqs, UnputLines) + |s.hosts| + SumOf(s.ress, ResWork) + |s.results| + SumOf(s.ress, IsAway)
  }

  /** Resolvers look up hosts, never the pill. */
  predicate ResultsOk(c: Config, s: State) {
    && SumOf(s.hostsBy, Count) == |s.results|
    && (forall i :: 0 <= i < |s.results| ==>
         s.results[i].1 == c.lookup(s.results[i].0) && s.results[i].0 != c.poison)
    && (forall t :: 0 <= t < |s.ress| ==> s.ress[t] != Resolving(c.poison))
  }

  /** The pills that main has put into the host queue are at its end. */
  predicate PillsOk(c: Config, s: State)
    requires WellShaped(c, s)
  {
    && |s.hosts| <= c.capacity
    && (forall i :: 0 <= i < |s.hosts| && |s.hosts| - PillsPut(c, s) <= i ==> s.hosts[i] == c.poison)
  }

  predicate JoinsOk(c: Config, s: State)
    requires WellShaped(c, s)
  {
    && s.main <= End(c)
    && (forall t :: 0 <= t < |s.reqs| && t < s.main - FeedEnd(c) ==> s.reqs[t].Gone?)
    && (forall t :: 0 <= t < |s.ress| && t < s.main - PillEnd(c) ==> s.ress[t].Away?)
  }

  ghost predicate Inv(c: Config, s: State) {
    && WellShaped(c, s)
    && JoinsOk(c, s)
    && FilesOk(c, s)
    && PillsOk(c, s)
    && ResultsOk(c, s)
    && CountOk(c, s)
    && forall h :: LinesOk(c, s, h)
  }

  lemma SomeoneLeft(c: Config, s: State, t: nat)
    requires WellShaped(c, s) && FilesOk(c, s) && t < c.requesters && !s.reqs[t].Gone?
    ensures Terminals(c, s.fetched) < c.requesters
  {
    SumOfConst(s.reqs, (r: Requester) => 1, 1);
    assert IsGone(s.reqs[t]) < ((r: Requester) => 1)(s.reqs[t]);
    SumOfLe(s.reqs, IsGone, s.reqs, (r: Requester) => 1);
  }

  lemma StepKeepsJoins(c: Config, s: State, a: Actor)
    requires WellShaped(c, s) && JoinsOk(c, s) && Enabled(c, s, a)
    ensures WellShaped(c, Step(c, s, a)) && JoinsOk(c, Step(c, s, a))
  {
  }

  lemma MainKeepsFiles(c: Config, s: State)
    requires WellShaped(c, s) && FilesOk(c, s) && Enabled(c, s, Main)
    ensures FilesOk(c, Step(c, s, Main))
  {
  }

  lemma FetchMeans(c: Config, s: State, t: nat)
    requires WellShaped(c, s) && FilesOk(c, s) && Enabled(c, s, Req(t)) && s.reqs[t].Fetching?
    ensures var s', r' := RequesterStep(c, s, t), RequesterStep(c, s, t).reqs[t];
      && s.files != [] && s.files[0] == Item(c, s.fetched) && s.fetched < FeedEnd(c)
      && s'.files == s.files[1..] && s'.fetched == s.fetched + 1 && s'.main == s.main && s'.filesBy == s.filesBy
      && s'.reqs == s.reqs[t := r'] && r'.Gone? == Terminal(c, s.files[0]) && (r'.Gone? || r'.Reading?)
  {
  }

  lemma FetchKeepsFiles(c: Config, s: State, t: nat)
    requires WellShaped(c, s) && FilesOk(c, s) && Enabled(c, s, Req(t)) && s.reqs[t].Fetching?
    ensures FilesOk(c, RequesterStep(c, s, t))
  {
    hide RequesterStep, Item, Terminal;
    FetchMeans(c, s, t);
    var s' := RequesterStep(c, s, t);
    SumOfUpdate(s.reqs, t, s'.reqs[t], IsGone);
    SumOfUpdate(s.reqs, t, s'.reqs[t], IsBusy);
    SomeoneLeft(c, s, t);
  }

  lemma ReadKeepsFiles(c: Config, s: State, t: nat)
    requires WellShaped(c, s) && FilesOk(c, s) && Enabled(c, s, Req(t)) && !s.reqs[t].Fetching?
    ensures FilesOk(c, RequesterStep(c, s, t))
  {
    var s' := RequesterStep(c, s, t);
    SumOfUpdate(s.reqs, t, s'.reqs[t], IsGone);
    SumOfUpdate(s.reqs, t, s'.reqs[t], IsBusy);
    SumOfUpdate(s.filesBy, t, s.filesBy[t] + 1, Count);
  }

  lemma StepKeepsFiles(c: Config, s: State, a: Actor)
    requires WellShaped(c, s) && FilesOk(c, s) && Enabled(c, s, a)
    ensures FilesOk(c, Step(c, s, a))
  {
    match a
    case Main => MainKeepsFiles(c, s);
    case Req(t) =>
      if s.reqs[t].Fetching? {
        FetchKeepsFiles(c, s, t);
      } else {
        ReadKeepsFiles(c, s, t);
      }
    case Res(t) =>
  }

  lemma NoPillsYet(c: Config, s: State, t: nat)
    requires WellShaped(c, s) && JoinsOk(c, s) && t < c.requesters && !s.reqs[t].Gone?
    ensures s.main < JoinEnd(c) && PillsPut(c, s) == 0
  {
  }

  lemma StepKeepsPills(c: Config, s: State, a: Actor)
    requires WellShaped(c, s) && JoinsOk(c, s) && PillsOk(c, s) && Enabled(c, s, a)
    ensures PillsOk(c, Step(c, s, a))
  {
    if a.Req? {
      NoPillsYet(c, s, a.t);
    }
  }

  lemma RequesterKeepsCount(c: Config, s: State, t: nat)
    requires WellShaped(c, s) && FilesOk(c, s) && CountOk(c, s) && Enabled(c, s, Req(t))
    requires s.reqs[t].Fetching? ==> s.fetched < FeedEnd(c)
    ensures CountOk(c, RequesterStep(c, s, t))
  {
    SumOfUpdate(s.reqs, t, RequesterStep(c, s, t).reqs[t], UnputLines);
    if s.reqs[t].Fetching? {
      assert s.files[0] == Item(c, s.fetched);
    }
  }

  lemma ResolverKeepsCount(c: Config, s: State, t: nat)
    requires WellShaped(c, s) && s.fetched <= FeedEnd(c) && CountOk(c, s) && Enabled(c, s, Res(t))
    ensures CountOk(c, ResolverStep(c, s, t))
  {
    SumOfUpdate(s.ress, t, ResolverStep(c, s, t).ress[t], ResWork);
    SumOfUpdate(s.ress, t, ResolverStep(c, s, t).ress[t], IsAway);
  }

  lemma StepKeepsCount(c: Config, s: State, a: Actor)
    requires WellShaped(c, s) && FilesOk(c, s) && CountOk(c, s) && Enabled(c, s, a)
    requires a.Req? && s.reqs[a.t].Fetching? ==> s.fetched < FeedEnd(c)
    ensures CountOk(c, Step(c, s, a))
  {
    match a
    case Main =>
    case Req(t) => RequesterKeepsCount(c, s, t);
    case Res(t) => ResolverKeepsCount(c, s, t);
  }

  lemma FetchKeepsLines(c: Config, s: State, t: nat, h: string)
    requires WellShaped(c, s) && FilesOk(c, s) && LinesOk(c, s, h)
    requires Enabled(c, s, Req(t)) && s.reqs[t].Fetching? && s.fetched < FeedEnd(c)
    ensures LinesOk(c, RequesterStep(c, s, t), h)
  {
    var r' := RequesterStep(c, s, t).reqs[t];
    SumOfUpdate(s.reqs, t, r', UnloggedOf(h));
    SumOfUpdate(s.reqs, t, r', UnputOf(h));
    assert s.files[0] == Item(c, s.fetched);
  }

  lemma ReadKeepsLines(c: Config, s: State, t: nat, h: string)
    requires WellShaped(c, s) && s.fetched <= FeedEnd(c) && LinesOk(c, s, h)
    requires Enabled(c, s, Req(t)) && !s.reqs[t].Fetching?
    ensures LinesOk(c, RequesterStep(c, s, t), h)
  {
    var r, r' := s.reqs[t], RequesterStep(c, s, t).reqs[t];
    SumOfUpdate(s.reqs, t, r', UnloggedOf(h));
    SumOfUpdate(s.reqs, t, r', UnputOf(h));
    if r.Logging? {
      OccursLast(s.serviced, r.line, h);
    } else if r.rest != [] {
      OccursLast(s.hosts, r.rest[0], h);
    }
  }

  lemma TakeKeepsLines(c: Config, s: State, t: nat, h: string)
    requires WellShaped(c, s) && s.fetched <= FeedEnd(c) && LinesOk(c, s, h)
    requires Enabled(c, s, Res(t)) && s.ress[t].Taking?
    ensures LinesOk(c, ResolverStep(c, s, t), h)
  {
    var r' := ResolverStep(c, s, t).ress[t];
    SumOfUpdate(s.ress, t, r', InHandOf(h));
    SumOfUpdate(s.ress, t, r', IsAway);
  }

  lemma ResolveKeepsLines(c: Config, s: State, t: nat, h: string)
    requires WellShaped(c, s) && s.fetched <= FeedEnd(c) && LinesOk(c, s, h)
    requires Enabled(c, s, Res(t)) && s.ress[t].Resolving?
    ensures LinesOk(c, ResolverStep(c, s, t), h)
  {
    var s' := ResolverStep(c, s, t);
    SumOfUpdate(s.ress, t, s'.ress[t], InHandOf(h));
    SumOfUpdate(s.ress, t, s'.ress[t], IsAway);
    OccursLast(Hosts(s.results), s.ress[t].host, h);
    assert Hosts(s'.results) == Hosts(s.results) + [s.ress[t].host];
  }

  lemma MainKeepsLines(c: Config, s: State, h: string)
    requires WellShaped(c, s) && s.fetched <= FeedEnd(c) && LinesOk(c, s, h) && Enabled(c, s, Main)
    ensures LinesOk(c, Step(c, s, Main), h)
  {
    OccursLast(s.hosts, c.poison, h);
  }

  lemma StepKeepsResults(c: Config, s: State, a: Actor)
    requires WellShaped(c, s) && ResultsOk(c, s) && Enabled(c, s, a)
    ensures ResultsOk(c, Step(c, s, a))
  {
    var s' := Step(c, s, a);
    if a.Res? && s.ress[a.t].Resolving? {
      SumOfUpdate(s.hostsBy, a.t, s'.hostsBy[a.t], Count);
    }
  }

  lemma FetchedInRange(c: Config, s: State)
    requires FilesOk(c, s)
    ensures s.fetched <= Consumed(c) <= FeedEnd(c)
    ensures s.files != [] ==> s.fetched < FeedEnd(c)
  {
  }

  lemma StepKeepsInv(c: Config, s: State, a: Actor)
    requires Inv(c, s) && Enabled(c, s, a)
    ensures Inv(c, Step(c, s, a))
  {
    FetchedInRange(c, s);
    StepKeepsJoins(c, s, a);
    StepKeepsFiles(c, s, a);
    StepKeepsResults(c, s, a);
    StepKeepsPills(c, s, a);
    StepKeepsCount(c, s, a);
    forall h ensures LinesOk(c, Step(c, s, a), h) {
      assert LinesOk(c, s, h);
      match a {
        case Main => MainKeepsLines(c, s, h);
        case Req(t) =>
          if s.reqs[t].Fetching? {
            FetchKeepsLines(c, s, t, h);
          } else {
            ReadKeepsLines(c, s, t, h);
          }
        case Res(t) =>
          if s.ress[t].Taking? {
            TakeKeepsLines(c, s, t, h);
          } else {
            ResolveKeepsLines(c, s, t, h);
          }
      }
    }
  }

  lemma InitOk(c: Config)
    ensures Inv(c, Init(c))
  {
    var s := Init(c);
    SumOfConst(s.reqs, IsGone, 0);
    SumOfConst(s.reqs, IsBusy, 0);
    SumOfConst(s.ress, IsAway, 0);
    SumOfConst(s.ress, ResWork, 0);
    SumOfConst(s.reqs, UnputLines, 0);
    SumOfConst(s.filesBy, Count, 0);
    SumOfConst(s.hostsBy, Count, 0);
    forall h ensures LinesOk(c, s, h) {
      SumOfConst(s.reqs, UnloggedOf(h), 0);
      SumOfConst(s.reqs, UnputOf(h), 0);
      SumOfConst(s.ress, InHandOf(h), 0);
    }
  }

  // ---- whole runs

  ghost predicate RunFrom(c: Config, s: State, sched: seq<Actor>)
    requires WellShaped(c, s)
    decreases |sched|
  {
    sched == [] || (Enabled(c, s, sched[0]) && RunFrom(c, Step(c, s, sched[0]), sched[1..]))
  }

  ghost function Run(c: Config, s: State, sched: seq<Actor>): (s': State)
    requires WellShaped(c, s) && RunFrom(c, s, sched)
    ensures WellShaped(c, s')
    decreases |sched|
  {
    if sched == [] then s else Run(c, Step(c, s, sched[0]), sched[1..])
  }

  function ReqWork(r: Requester): int {
    match r
    case Reading(rest) => 1 + 4 * |rest|
    case Logging(_, rest) => 2 + 4 * |rest|
    case _ => 0
  }

  function ResWork(r: Resolver): int { if r.Resolving? then 1 else 0 }

  function WorkFrom(c: Config, k: nat): nat
    requires k <= FeedEnd(c)
    decreases FeedEnd(c) - k
  {
    if k == FeedEnd(c) then 0
    else
      var item := Item(c, k);
      (if Terminal(c, item) then 1 else 2 + 4 * |Content(c, item)|) + WorkFrom(c, k + 1)
  }

  /** The steps still to come, if none of them blocks for ever. */
  function Rank(c: Config, s: State): int
    requires s.fetched <= FeedEnd(c)
  {
    End(c) - s.main + c.resolvers - PillsPut(c, s)
    + WorkFrom(c, s.fetched) + SumOf(s.reqs, ReqWork)
    + 2 * |s.hosts| - PillsQueued(c, s) + SumOf(s.ress, ResWork)
  }

  lemma RequesterUsesOne(c: Config, s: State, t: nat)
    requires WellShaped(c, s) && FilesOk(c, s) && Enabled(c, s, Req(t))
    requires s.reqs[t].Fetching? ==> s.fetched < FeedEnd(c)
    ensures Rank(c, RequesterStep(c, s, t)) == Rank(c, s) - 1
  {
    SumOfUpdate(s.reqs, t, RequesterStep(c, s, t).reqs[t], ReqWork);
    if s.reqs[t].Fetching? {
      assert s.files[0] == Item(c, s.fetched);
    }
  }

  lemma ResolverUsesOne(c: Config, s: State, t: nat)
    requires WellShaped(c, s) && s.fetched <= FeedEnd(c) && Enabled(c, s, Res(t))
    ensures Rank(c, ResolverStep(c, s, t)) == Rank(c, s) - 1
  {
    SumOfUpdate(s.ress, t, ResolverStep(c, s, t).ress[t], ResWork);
    SumOfUpdate(s.ress, t, ResolverStep(c, s, t).ress[t], IsAway);
  }

  lemma StepUsesOne(c: Config, s: State, a: Actor)
    requires Inv(c, s) && Enabled(c, s, a) && FilesOk(c, Step(c, s, a))
    ensures Rank(c, Step(c, s, a)) == Rank(c, s) - 1
  {
    match a
    case Main =>
    case Req(t) => RequesterUsesOne(c, s, t);
    case Res(t) => ResolverUsesOne(c, s, t);
  }

  lemma RankNotNegative(c: Config, s: State)
    requires Inv(c, s)
    ensures Rank(c, s) >= 0
  {
    SumOfNonNegative(s.reqs, ReqWork);
    SumOfNonNegative(s.ress, ResWork);
    PillsAccounted(c, s);
    OccursBounds(s.hosts, c.poison, 0);
    assert LinesOk(c, s, c.poison);
    SumOfLe(s.reqs, UnputOf(c.poison), s.reqs, UnloggedOf(c.poison));
  }

  /** Every step of every run uses up one unit of rank, and the rank is never negative: no
      schedule can go on for ever, and all complete runs that leave the same queues behind have
      the same length. */
  lemma {:induction false} RunLaws(c: Config, s: State, sched: seq<Actor>)
    requires Inv(c, s) && RunFrom(c, s, sched)
    ensures Inv(c, Run(c, s, sched))
    ensures |sched| == Rank(c, s) - Rank(c, Run(c, s, sched))
    ensures Rank(c, Run(c, s, sched)) >= 0
    decreases |sched|
  {
    hide JoinsOk, FilesOk, PillsOk, ResultsOk, CountOk, LinesOk, Enabled, Step, Rank;
    if sched == [] {
      RankNotNegative(c, s);
    } else {
      StepKeepsInv(c, s, sched[0]);
      StepUsesOne(c, s, sched[0]);
      RunLaws(c, Step(c, s, sched[0]), sched[1..]);
    }
  }

  // ---- where the pills are

  /** The last n entries are x: x occurs at least n times, and as often as there are entries
      if these are all. */
  lemma {:induction false} OccursBounds(s: seq<string>, x: string, n: nat)
    requires n <= |s| && forall i :: |s| - n <= i < |s| ==> s[i] == x
    ensures n <= Occurs(s, x) <= |s|
  {
    if s != [] {
      OccursBounds(s[1..], x, if n == |s| then n - 1 else n);
    }
  }

  lemma {:induction false} OccursNever(s: seq<string>, x: string)
    requires forall i :: 0 <= i < |s| ==> s[i] != x
    ensures Occurs(s, x) == 0
  {
    if s != [] {
      OccursNever(s[1..], x);
    }
  }

  /** Each pill, whether main's or a line, is still in a requester's file, or queued, or has
      ended a resolver. */
  lemma PillsAccounted(c: Config, s: State)
    requires Inv(c, s)
    ensures Lines(c, s.fetched, c.poison) + PillsQueued(c, s)
         == SumOf(s.reqs, UnputOf(c.poison)) + Occurs(s.hosts, c.poison)
    ensures SumOf(s.reqs, UnputOf(c.poison)) >= 0
  {
    assert LinesOk(c, s, c.poison);
    SumOfConst(s.ress, InHandOf(c.poison), 0);
    SumOfNonNegative(s.reqs, UnputOf(c.poison));
    OccursNever(Hosts(s.results), c.poison);
  }

  /** Once more resolvers are gone than there are pill lines, only main's pills are queued. */
  lemma OnlyPillsLeft(c: Config, s: State)
    requires Inv(c, s) && SumOf(s.ress, IsAway) > PillLines(c)
    ensures |s.hosts| <= PillsPut(c, s) && forall i :: 0 <= i < |s.hosts| ==> s.hosts[i] == c.poison
    ensures |s.hosts| + SumOf(s.reqs, UnputOf(c.poison)) == Lines(c, s.fetched, c.poison) + PillsQueued(c, s)
  {
    PillsAccounted(c, s);
    FetchedInRange(c, s);
    LinesGrow(c, s.fetched, Consumed(c), c.poison);
    if |s.hosts| > PillsPut(c, s) {
      OccursBounds(s.hosts, c.poison, PillsPut(c, s));
    } else {
      OccursBounds(s.hosts, c.poison, |s.hosts|);
    }
  }

  /** Before main puts its pills, the pill lines are all that can have ended resolvers. */
  lemma FewAreAway(c: Config, s: State)
    requires Inv(c, s) && PillsPut(c, s) == 0
    ensures SumOf(s.ress, IsAway) <= PillLines(c)
  {
    PillsAccounted(c, s);
    FetchedInRange(c, s);
    LinesGrow(c, s.fetched, Consumed(c), c.poison);
  }

  /** No resolver takes a pill while a host is still queued, in any reachable state, if no line
      is the pill. */
  lemma NoPillBeforeHost(c: Config, sched: seq<Actor>)
    requires PillLines(c) == 0 && RunFrom(c, Init(c), sched)
    ensures var s := Run(c, Init(c), sched);
      s.hosts != [] && s.hosts[0] == c.poison ==>
        forall i :: 0 <= i < |s.hosts| ==> s.hosts[i] == c.poison
  {
    InitOk(c);
    RunLaws(c, Init(c), sched);
    var s := Run(c, Init(c), sched);
    if s.hosts != [] && s.hosts[0] == c.poison && |s.hosts| > PillsPut(c, s) {
      PillsAccounted(c, s);
      FetchedInRange(c, s);
      LinesGrow(c, s.fetched, Consumed(c), c.poison);
      SumOfNonNegative(s.ress, IsAway);
      OccursBounds(s.hosts[1..], c.poison, PillsPut(c, s));
    }
  }

  // ---- when the pipeline shuts down

  ghost predicate Stuck(c: Config, s: State)
    requires WellShaped(c, s)
  {
    forall a :: !Enabled(c, s, a)
  }

  /** The outcome is decided before the run starts: there are more resolvers than pill lines,
      or none at all. */
  predicate Decided(c: Config) { c.resolvers == 0 || PillLines(c) < c.resolvers }

  /** The queues have room for what is never taken out of them: the items after the one that
      ends the last requester, and as many pills as lines are pills, or all lines if there is
      no resolver. */
  predicate Fits(c: Config) {
    && Unread(c) <= c.capacity
    && (if c.resolvers == 0 then TotalLines(c, Consumed(c)) else PillLines(c)) <= c.capacity
  }

  lemma ResolverMoves(c: Config, s: State)
    requires Inv(c, s) && Stuck(c, s) && SumOf(s.ress, IsAway) < c.resolvers
    ensures s.hosts == []
  {
    SumOfFlags(s.ress, IsAway);
    var t :| 0 <= t < |s.ress| && IsAway(s.ress[t]) != 1;
    assert !Enabled(c, s, Res(t));
  }

  /** A requester that is not gone can step, unless it waits for a file name. */
  lemma RequesterMoves(c: Config, s: State, t: nat)
    requires c.capacity > 0 && Decided(c) && Fits(c) && Inv(c, s) && Stuck(c, s)
    requires t < c.requesters && !s.reqs[t].Gone?
    ensures s.reqs[t].Fetching? && s.files == []
  {
    assert !Enabled(c, s, Req(t));
    if !s.reqs[t].Fetching? {
      NoPillsYet(c, s, t);
      FewAreAway(c, s);
      if c.resolvers > 0 {
        ResolverMoves(c, s);
      } else {
        NoRoomLeft(c, s, t);
      }
    }
  }

  /** Without resolvers, a requester that finds the host queue full reads more lines than fit. */
  lemma NoRoomLeft(c: Config, s: State, t: nat)
    requires Inv(c, s) && c.resolvers == 0 && t < c.requesters
    ensures |s.hosts| + UnputLines(s.reqs[t]) <= TotalLines(c, Consumed(c))
  {
    SumOfConst(s.ress, ResWork, 0);
    SumOfConst(s.ress, IsAway, 0);
    SumOfConst(s.hostsBy, Count, 0);
    SumOfAtLeast(s.reqs, UnputLines, t);
    FetchedInRange(c, s);
    LinesGrow(c, s.fetched, Consumed(c), c.poison);
  }

  /** With room for what is never taken, nothing but the end is stuck. */
  lemma StuckMeansEnd(c: Config, s: State)
    requires c.capacity > 0 && Decided(c) && Fits(c) && Inv(c, s) && Stuck(c, s)
    ensures s.main == End(c)
  {
    assert !Enabled(c, s, Main);
    if s.main < JoinEnd(c) {
      FeedingMoves(c, s);
    } else if s.main < End(c) {
      SumOfFlags(s.ress, IsAway);
      if s.main >= PillEnd(c) {
        assert IsAway(s.ress[s.main - PillEnd(c)]) == 0;
      }
      SumOfConst(s.reqs, UnputOf(c.poison), 0);
      PillsAccounted(c, s);
      if SumOf(s.ress, IsAway) < c.resolvers {
        ResolverMoves(c, s);
      } else {
        OnlyPillsLeft(c, s);
        FetchedInRange(c, s);
        LinesGrow(c, s.fetched, Consumed(c), c.poison);
      }
    }
  }

  lemma FeedingMoves(c: Config, s: State)
    requires c.capacity > 0 && Decided(c) && Fits(c) && Inv(c, s) && Stuck(c, s)
    ensures s.main >= JoinEnd(c)
  {
    assert !Enabled(c, s, Main);
    SumOfFlags(s.reqs, IsGone);
    if s.main < JoinEnd(c) && SumOf(s.reqs, IsGone) < c.requesters {
      var t: nat :| t < |s.reqs| && IsGone(s.reqs[t]) != 1;
      RequesterMoves(c, s, t);
      SomeoneLeft(c, s, t);
      TerminalsOfPills(c, c.requesters);
    }
  }

  /** The pipeline shuts down exactly when its queues have room for what is never taken out of
      them. If they have, every run that cannot go on is complete; if not, no run ever
      completes. Which of the two holds is known before the run starts, and by RunLaws every
      run stops. */
  lemma TerminatesExactlyWhen(c: Config, sched: seq<Actor>)
    requires c.capacity > 0 && Decided(c) && RunFrom(c, Init(c), sched)
    ensures var s := Run(c, Init(c), sched);
      && (s.main == End(c) ==> Fits(c))
      && (Stuck(c, s) && Fits(c) ==> s.main == End(c))
  {
    hide Inv, Fits, Stuck, Decided;
    InitOk(c);
    RunLaws(c, Init(c), sched);
    var s := Run(c, Init(c), sched);
    if s.main == End(c) {
      EndFits(c, s);
    } else if Stuck(c, s) && Fits(c) {
      StuckMeansEnd(c, s);
    }
  }

  lemma AtEnd(c: Config, s: State)
    requires Inv(c, s) && s.main == End(c)
    ensures s.fetched == Consumed(c) && SumOf(s.filesBy, Count) == Consumed(c) - c.requesters
    ensures SumOf(s.ress, IsAway) == c.resolvers && SumOf(s.reqs, UnputOf(c.poison)) == 0
  {
    SumOfConst(s.reqs, IsGone, 1);
    SumOfConst(s.reqs, IsBusy, 0);
    SumOfConst(s.ress, IsAway, 1);
    SumOfConst(s.reqs, UnputOf(c.poison), 0);
  }

  /** What stays in the host queue: one pill for each pill line. */
  lemma PillsLeft(c: Config, s: State)
    requires Inv(c, s) && s.main == End(c) && PillLines(c) < c.resolvers
    ensures |s.hosts| == PillLines(c) && forall i :: 0 <= i < |s.hosts| ==> s.hosts[i] == c.poison
  {
    AtEnd(c, s);
    OnlyPillsLeft(c, s);
  }

  lemma EndFits(c: Config, s: State)
    requires Inv(c, s) && s.main == End(c) && Decided(c)
    ensures Fits(c)
  {
    AtEnd(c, s);
    if c.resolvers > 0 {
      PillsLeft(c, s);
    } else {
      SumOfConst(s.reqs, UnputLines, 0);
      SumOfConst(s.ress, ResWork, 0);
      SumOfConst(s.hostsBy, Count, 0);
    }
  }

  // ---- delivery

  lemma AtEndLines(c: Config, s: State, h: string)
    requires Inv(c, s) && s.main == End(c) && PillLines(c) < c.resolvers
    ensures multiset(s.serviced)[h] == Lines(c, Consumed(c), h)
    ensures multiset(Hosts(s.results))[h] == if h == c.poison then 0 else Lines(c, Consumed(c), h)
  {
    hide FilesOk, JoinsOk, CountOk, Consumed, Lines;
    AtEnd(c, s);
    PillsLeft(c, s);
    AllGone(c, s, h);
    FetchedInRange(c, s);
    assert LinesOk(c, s, h);
    OccursIsMultiplicity(s.serviced, h);
    OccursIsMultiplicity(Hosts(s.results), h);
    if h == c.poison {
      OccursNever(Hosts(s.results), h);
    } else {
      OccursNever(s.hosts, h);
    }
  }

  lemma AllGone(c: Config, s: State, h: string)
    requires Inv(c, s) && s.main == End(c)
    ensures SumOf(s.reqs, UnloggedOf(h)) == SumOf(s.reqs, UnputOf(h)) == SumOf(s.ress, InHandOf(h)) == 0
  {
    SumOfConst(s.reqs, UnloggedOf(h), 0);
    SumOfConst(s.reqs, UnputOf(h), 0);
    SumOfConst(s.ress, InHandOf(h), 0);
  }

  /** What a complete run has delivered: the serviced log holds every line of every file taken,
      as often as it occurs there; the results log holds the same but for the pill lines, each
      with its lookup; the counts printed by the threads add up; and what is left in the queues
      are the unread items, and one pill for each pill line. */
  ghost predicate Delivered(c: Config, s: State) {
    && (forall h :: multiset(s.serviced)[h] == Lines(c, Consumed(c), h))
    && (forall h :: multiset(Hosts(s.results))[h] == if h == c.poison then 0 else Lines(c, Consumed(c), h))
    && (forall i :: 0 <= i < |s.results| ==> s.results[i].1 == c.lookup(s.results[i].0))
    && SumOf(s.filesBy, Count) == Consumed(c) - c.requesters
    && SumOf(s.hostsBy, Count) == |s.results|
    && |s.hosts| == PillLines(c) && (forall i :: 0 <= i < |s.hosts| ==> s.hosts[i] == c.poison)
    && |s.files| == Unread(c)
    && (forall i :: 0 <= i < |s.files| ==> s.files[i] == Item(c, Consumed(c) + i))
  }

  /** Exactly-once delivery: in every interleaving, when main returns all is delivered, as long
      as there are more resolvers than pill lines. */
  lemma ExactlyOnce(c: Config, sched: seq<Actor>)
    requires PillLines(c) < c.resolvers && RunFrom(c, Init(c), sched)
    requires Run(c, Init(c), sched).main == End(c)
    ensures Delivered(c, Run(c, Init(c), sched))
  {
    hide LinesOk, PillsOk, JoinsOk, CountOk, Consumed, Lines, Hosts;
    InitOk(c);
    RunLaws(c, Init(c), sched);
    var s := Run(c, Init(c), sched);
    AtEnd(c, s);
    PillsLeft(c, s);
    forall h
      ensures multiset(s.serviced)[h] == Lines(c, Consumed(c), h)
      ensures multiset(Hosts(s.results))[h] == if h == c.poison then 0 else Lines(c, Consumed(c), h)
    {
      AtEndLines(c, s, h);
    }
  }

  /** A line that is the pill ends a resolver and is lost: it is logged as serviced and never
      as a result. */
  lemma PillLineIsLost(c: Config, sched: seq<Actor>)
    requires RunFrom(c, Init(c), sched) && Run(c, Init(c), sched).main == End(c) && PillLines(c) > 0
    ensures c.poison in multiset(Run(c, Init(c), sched).serviced)
    ensures c.poison !in multiset(Hosts(Run(c, Init(c), sched).results))
  {
    InitOk(c);
    RunLaws(c, Init(c), sched);
    var s := Run(c, Init(c), sched);
    AtEnd(c, s);
    AllGone(c, s, c.poison);
    assert LinesOk(c, s, c.poison);
    OccursIsMultiplicity(s.serviced, c.poison);
    assert c.poison !in Hosts(s.results);
  }

  lemma {:induction false} SomeLine(c: Config, k: nat) returns (h: string)
    requires k <= FeedEnd(c)
    ensures TotalLines(c, k) == 0 ==> forall g :: Lines(c, k, g) == 0
    ensures TotalLines(c, k) > 0 ==> Lines(c, k, h) > 0
  {
    h := "";
    if k > 0 {
      h := SomeLine(c, k - 1);
      if Content(c, Item(c, k - 1)) != [] {
        h := Content(c, Item(c, k - 1))[0];
      }
    }
  }

  /** Without resolvers nothing is looked up. */
  lemma NothingResolved(c: Config, s: State, h: string)
    requires Inv(c, s) && s.main == End(c) && c.resolvers == 0
    ensures s.results == [] && multiset(s.serviced)[h] == Lines(c, Consumed(c), h)
  {
    hide FilesOk, JoinsOk, CountOk, PillsOk, Consumed, Lines;
    AtEnd(c, s);
    AllGone(c, s, h);
    FetchedInRange(c, s);
    assert LinesOk(c, s, h);
    OccursIsMultiplicity(s.serviced, h);
  }

  /** At the end of a run the two logs hold the same hosts if and only if no line that is read
      is the pill; without resolvers, if and only if there was no line to read. */
  lemma ExactlyOnceExactlyWhen(c: Config, sched: seq<Actor>)
    requires RunFrom(c, Init(c), sched) && Run(c, Init(c), sched).main == End(c)
    ensures multiset(Run(c, Init(c), sched).serviced) == multiset(Hosts(Run(c, Init(c), sched).results))
       <==> if c.resolvers == 0 then TotalLines(c, Consumed(c)) == 0 else PillLines(c) == 0
  {
    hide Inv, Hosts, Lines, TotalLines;
    var s := Run(c, Init(c), sched);
    if c.resolvers == 0 {
      InitOk(c);
      RunLaws(c, Init(c), sched);
      var some := SomeLine(c, Consumed(c));
      NothingResolved(c, s, some);
      NoHosts(s.results);
      forall h ensures multiset(s.serviced)[h] == Lines(c, Consumed(c), h) {
        NothingResolved(c, s, h);
      }
    } else if PillLines(c) == 0 {
      ExactlyOnce(c, sched);
      forall h ensures multiset(s.serviced)[h] == multiset(Hosts(s.results))[h] {
        assert h == c.poison ==> Lines(c, Consumed(c), h) == 0;
      }
    } else {
      PillLineIsLost(c, sched);
    }
  }

  lemma NoHosts(results: seq<(string, string)>)
    requires results == []
    ensures multiset(Hosts(results)) == multiset{}
  {
  }

  // ---- each thread's own count

  /** How many of the moves are resolver t's. */
  function MovesOf(sched: seq<Actor>, t: nat): nat
    decreases |sched|
  {
    if sched == [] then 0 else MovesOf(sched[1..], t) + if sched[0] == Res(t) then 1 else 0
  }

  /** How many items requester t takes out of the file queue. */
  function Fetches(c: Config, s: State, sched: seq<Actor>, t: nat): nat
    requires WellShaped(c, s) && RunFrom(c, s, sched) && t < c.requesters
    decreases |sched|
  {
    if sched == [] then 0
    else Fetches(c, Step(c, s, sched[0]), sched[1..], t) + if sched[0] == Req(t) && s.reqs[t].Fetching? then 1 else 0
  }

  function Halves(r: Resolver, count: nat): nat { 2 * count + if r.Taking? then 0 else 1 }

  function Begun(r: Requester, count: nat): nat { count + if r.Fetching? then 0 else 1 }

  lemma {:induction false} ResolverCounts(c: Config, s: State, sched: seq<Actor>, t: nat)
    requires WellShaped(c, s) && RunFrom(c, s, sched) && t < c.resolvers
    ensures Halves(Run(c, s, sched).ress[t], Run(c, s, sched).hostsBy[t])
         == Halves(s.ress[t], s.hostsBy[t]) + MovesOf(sched, t)
    decreases |sched|
  {
    if sched != [] {
      StepShape(c, s, sched[0]);
      ResolverCounts(c, Step(c, s, sched[0]), sched[1..], t);
    }
  }

  lemma {:induction false} RequesterCounts(c: Config, s: State, sched: seq<Actor>, t: nat)
    requires WellShaped(c, s) && RunFrom(c, s, sched) && t < c.requesters
    ensures Begun(Run(c, s, sched).reqs[t], Run(c, s, sched).filesBy[t])
         == Begun(s.reqs[t], s.filesBy[t]) + Fetches(c, s, sched, t)
    decreases |sched|
  {
    if sched != [] {
      StepShape(c, s, sched[0]);
      RequesterCounts(c, Step(c, s, sched[0]), sched[1..], t);
    }
  }

  lemma StepShape(c: Config, s: State, a: Actor)
    requires WellShaped(c, s) && Enabled(c, s, a)
    ensures WellShaped(c, Step(c, s, a))
  {
  }

  /** What each thread prints at its end is its own: in every run a resolver has counted half of
      its moves, for it takes and looks up in turn; and a requester that is gone has counted all
      items it has taken but the one that ended it. */
  lemma CountsAreOwn(c: Config, sched: seq<Actor>)
    requires RunFrom(c, Init(c), sched)
    ensures var s := Run(c, Init(c), sched);
      && |s.hostsBy| == c.resolvers && |s.filesBy| == |s.reqs| == c.requesters
      && (forall t: nat :: t < c.resolvers ==> s.hostsBy[t] == MovesOf(sched, t) / 2)
      && (forall t: nat :: t < c.requesters && s.reqs[t].Gone? ==> s.filesBy[t] == Fetches(c, Init(c), sched, t) - 1)
  {
    hide Enabled, Step;
    var s := Run(c, Init(c), sched);
    forall t: nat | t < c.resolvers ensures s.hostsBy[t] == MovesOf(sched, t) / 2 {
      ResolverCounts(c, Init(c), sched, t);
    }
    forall t: nat | t < c.requesters && s.reqs[t].Gone?
      ensures s.filesBy[t] == Fetches(c, Init(c), sched, t) - 1
    {
      RequesterCounts(c, Init(c), sched, t);
    }
  }

  // ---- the failing cases occur

  lemma {:induction false} RunOneMore(c: Config, s: State, sched: seq<Actor>, a: Actor)
    requires WellShaped(c, s) && RunFrom(c, s, sched) && Enabled(c, Run(c, s, sched), a)
    ensures RunFrom(c, s, sched + [a]) && Run(c, s, sched + [a]) == Step(c, Run(c, s, sched), a)
    decreases |sched|
  {
    if sched == [] {
      assert ([] + [a])[1..] == [];
    } else {
      assert Run(c, s, sched) == Run(c, Step(c, s, sched[0]), sched[1..]);
      assert (sched + [a])[1..] == sched[1..] + [a];
      RunOneMore(c, Step(c, s, sched[0]), sched[1..], a);
    }
  }

  lemma Play(c: Config, s: State, sched: seq<Actor>, a: Actor) returns (s': State, sched': seq<Actor>)
    requires RunFrom(c, Init(c), sched) && s == Run(c, Init(c), sched) && Enabled(c, s, a)
    ensures sched' == sched + [a] && RunFrom(c, Init(c), sched')
    ensures s' == Run(c, Init(c), sched') == Step(c, s, a) && WellShaped(c, s')
  {
    RunOneMore(c, Init(c), sched, a);
    s', sched' := Step(c, s, a), sched + [a];
  }

  lemma Begin(c: Config) returns (s: State, sched: seq<Actor>)
    ensures s == Init(c) && sched == [] && RunFrom(c, Init(c), sched) && s == Run(c, Init(c), sched)
  {
    s, sched := Init(c), [];
  }

  /** A requester that has opened a file with one line puts it, logs it and closes the file. */
  lemma PlayLine(c: Config, s: State, sched: seq<Actor>, t: nat, line: string) returns (s': State, sched': seq<Actor>)
    requires RunFrom(c, Init(c), sched) && s == Run(c, Init(c), sched)
    requires t < c.requesters && s.reqs[t] == Reading([line]) && |s.hosts| < c.capacity
    ensures RunFrom(c, Init(c), sched') && s' == Run(c, Init(c), sched') && WellShaped(c, s')
    ensures s' == s.(hosts := s.hosts + [line], serviced := s.serviced + [line],
                     filesBy := s.filesBy[t := s.filesBy[t] + 1], reqs := s.reqs[t := Fetching])
  {
    hide RunFrom, Run;
    s', sched' := Play(c, s, sched, Req(t));
    s', sched' := Play(c, s', sched', Req(t));
    s', sched' := Play(c, s', sched', Req(t));
  }

  /** A complete run with a pill line, for any lookup and pill: one file whose only line is the
      pill, one requester, one resolver. The line ends the resolver, and main's pill stays. */
  lemma PillLineRuns(lookup: string -> string, pill: string) returns (c: Config, sched: seq<Actor>)
    requires pill != "f"
    ensures c.names == ["f"] && c.poison == pill && c.requesters == c.resolvers == 1
    ensures PillLines(c) == 1
    ensures RunFrom(c, Init(c), sched) && Run(c, Init(c), sched).main == End(c)
    ensures Run(c, Init(c), sched).serviced == [pill] && Run(c, Init(c), sched).results == []
  {
    hide RunFrom, Run;
    c := Config(["f"], x => if x == "f" then Some([pill]) else None, lookup, pill, 1, 1, 2);
    OnePillLine(c);
    var s;
    s, sched := Begin(c);
    s, sched := Play(c, s, sched, Main);
    s, sched := Play(c, s, sched, Main);
    s, sched := Play(c, s, sched, Req(0));
    s, sched := PlayLine(c, s, sched, 0, pill);
    s, sched := Play(c, s, sched, Req(0));
    s, sched := Play(c, s, sched, Main);
    s, sched := Play(c, s, sched, Res(0));
    s, sched := Play(c, s, sched, Main);
    s, sched := Play(c, s, sched, Main);
  }

  lemma OnePillLine(c: Config)
    requires c.names == ["f"] && c.poison != "f" && c.open("f") == Some([c.poison]) && c.requesters == 1
    ensures PillLines(c) == 1
  {
    assert Terminals(c, 1) == 0 && Terminals(c, 2) == 1;
    assert Consumed(c) == 2;
    assert Occurs([c.poison], c.poison) == 1;
    assert Lines(c, 1, c.poison) == 1;
  }

  /** Two files, the one line of the first being the pill, in the hands of two requesters. */
  lemma PlayOpening(c: Config) returns (s: State, sched: seq<Actor>)
    requires c.names == ["f", "g"] && c.poison != "f" && c.poison != "g" && c.capacity == 1
    requires c.open("f") == Some([c.poison]) && c.open("g") == Some(["h"])
    requires c.requesters == 2 && c.resolvers == 1
    ensures RunFrom(c, Init(c), sched) && s == Run(c, Init(c), sched)
    ensures s == Init(c).(main := 2, fetched := 2, reqs := [Reading([c.poison]), Reading(["h"])])
  {
    hide RunFrom, Run;
    s, sched := Begin(c);
    s, sched := Play(c, s, sched, Main);
    s, sched := Play(c, s, sched, Req(0));
    s, sched := Play(c, s, sched, Main);
    s, sched := Play(c, s, sched, Req(1));
  }

  /** Both requesters are through: they are fed a pill each, and joined. */
  lemma PlayClosing(c: Config, s: State, sched: seq<Actor>) returns (s': State, sched': seq<Actor>)
    requires RunFrom(c, Init(c), sched) && s == Run(c, Init(c), sched) && WellShaped(c, s)
    requires |c.names| == c.requesters == 2 && c.capacity == 1
    requires s.main == 2 && s.files == [] && s.reqs == [Fetching, Fetching]
    ensures RunFrom(c, Init(c), sched') && s' == Run(c, Init(c), sched')
    ensures s' == s.(main := 6, fetched := s.fetched + 2, reqs := [Gone, Gone])
  {
    hide RunFrom, Run;
    s', sched' := Play(c, s, sched, Main);
    s', sched' := Play(c, s', sched', Req(0));
    s', sched' := Play(c, s', sched', Main);
    s', sched' := Play(c, s', sched', Req(1));
    s', sched' := Play(c, s', sched', Main);
    s', sched' := Play(c, s', sched', Main);
  }

  /** With as many pill lines as resolvers nothing is decided before the run starts: the same
      configuration has a complete run, in which the host comes before the pill line, and a run
      that is stuck for ever, in which it comes after. */
  lemma OutcomeDependsOnSchedule(lookup: string -> string, pill: string)
    returns (c: Config, good: seq<Actor>, bad: seq<Actor>)
    requires pill != "f" && pill != "g" && pill != "h"
    ensures c.poison == pill && c.resolvers == 1 && c.capacity == 1 && !Decided(c)
    ensures RunFrom(c, Init(c), good) && Run(c, Init(c), good).main == End(c)
    ensures RunFrom(c, Init(c), bad) && Stuck(c, Run(c, Init(c), bad)) && Run(c, Init(c), bad).main < End(c)
  {
    hide RunFrom, Run;
    c := Config(["f", "g"], x => if x == "f" then Some([pill]) else if x == "g" then Some(["h"]) else None,
                lookup, pill, 2, 1, 1);
    PillLineOfTwo(c);
    good := PlayHostFirst(c);
    bad := PlayPillFirst(c);
  }

  lemma PillLineOfTwo(c: Config)
    requires c.names == ["f", "g"] && c.poison != "f" && c.poison != "g" && c.poison != "h"
    requires c.open("f") == Some([c.poison]) && c.open("g") == Some(["h"]) && c.requesters == 2
    ensures PillLines(c) == 1
  {
    assert Terminals(c, 2) == 0 && Terminals(c, 3) == 1 && Terminals(c, 4) == 2;
    assert Consumed(c) == 4;
    assert Occurs([c.poison], c.poison) == 1 && Occurs(["h"], c.poison) == 0;
    assert Lines(c, 1, c.poison) == 1 && Lines(c, 2, c.poison) == 1;
    LinesOfPills(c, 2, c.poison);
  }

  lemma PlayHostFirst(c: Config) returns (sched: seq<Actor>)
    requires c.names == ["f", "g"] && c.poison != "f" && c.poison != "g" && c.poison != "h" && c.capacity == 1
    requires c.open("f") == Some([c.poison]) && c.open("g") == Some(["h"])
    requires c.requesters == 2 && c.resolvers == 1
    ensures RunFrom(c, Init(c), sched) && Run(c, Init(c), sched).main == End(c)
  {
    hide RunFrom, Run;
    var s;
    s, sched := PlayOpening(c);
    s, sched := PlayLine(c, s, sched, 1, "h");
    s, sched := Play(c, s, sched, Res(0));
    s, sched := Play(c, s, sched, Res(0));
    s, sched := PlayLine(c, s, sched, 0, c.poison);
    s, sched := Play(c, s, sched, Res(0));
    s, sched := PlayClosing(c, s, sched);
    s, sched := Play(c, s, sched, Main);
    s, sched := Play(c, s, sched, Main);
  }

  lemma PlayPillFirst(c: Config) returns (sched: seq<Actor>)
    requires c.names == ["f", "g"] && c.poison != "f" && c.poison != "g" && c.poison != "h" && c.capacity == 1
    requires c.open("f") == Some([c.poison]) && c.open("g") == Some(["h"])
    requires c.requesters == 2 && c.resolvers == 1
    ensures RunFrom(c, Init(c), sched) && Stuck(c, Run(c, Init(c), sched)) && Run(c, Init(c), sched).main < End(c)
  {
    hide RunFrom, Run;
    var s;
    s, sched := PlayOpening(c);
    s, sched := PlayLine(c, s, sched, 0, c.poison);
    s, sched := Play(c, s, sched, Res(0));
    s, sched := PlayLine(c, s, sched, 1, "h");
    s, sched := PlayClosing(c, s, sched);
  }

  /** Items left unread that do not fit: a file that does not open ends the only requester, and
      the queue holds one of the two items that come after it. Main blocks for ever. */
  lemma BadFileBlocksMain(open: string -> Option<seq<string>>, lookup: string -> string, pill: string,
                          bad: string, other: string)
    returns (c: Config, sched: seq<Actor>)
    requires open(bad).None?
    ensures c.names == [bad, other] && c.requesters == c.capacity == 1
    ensures Unread(c) == 2 > c.capacity && PillLines(c) == 0
    ensures RunFrom(c, Init(c), sched)
    ensures !Enabled(c, Run(c, Init(c), sched), Main) && !Enabled(c, Run(c, Init(c), sched), Req(0))
    ensures Stuck(c, Run(c, Init(c), sched)) && Run(c, Init(c), sched).main == 2 < End(c)
  {
    c := Config([bad, other], open, lookup, pill, 1, 1, 1);
    var s;
    s, sched := Begin(c);
    s, sched := Play(c, s, sched, Main);
    s, sched := Play(c, s, sched, Req(0));
    s, sched := Play(c, s, sched, Main);
    assert Terminals(c, 1) == 1;
    assert Consumed(c) == 1;
    assert Lines(c, 1, pill) == 0;
  }

  /** The usual case: k of the names do not open, none of them is the pill, and k is less
      than the number of requesters. Then the files read are all those that open, exactly k
      items stay in the file queue, and they are pills. */
  lemma FewBadFiles(c: Config)
    requires Terminals(c, |c.names|) < c.requesters
    ensures Unread(c) == Terminals(c, |c.names|)
    ensures Consumed(c) - c.requesters == |c.names| - Terminals(c, |c.names|)
    ensures forall h :: Lines(c, Consumed(c), h) == Lines(c, |c.names|, h)
    ensures forall i :: Consumed(c) <= i < FeedEnd(c) ==> Item(c, i) == c.poison
  {
    var k := Terminals(c, |c.names|);
    TerminalsOfPills(c, c.requesters - k);
    TerminalsOfPills(c, c.requesters - k - 1);
    var end := |c.names| + c.requesters - k;
    assert Consumed(c) == end by {
      if Consumed(c) < end {
        TerminalsGrow(c, Consumed(c), end - 1);
      }
    }
    forall h ensures Lines(c, end, h) == Lines(c, |c.names|, h) {
      LinesOfPills(c, c.requesters - k, h);
    }
  }

  lemma {:induction false} TerminalsGrow(c: Config, i: nat, j: nat)
    requires i <= j <= FeedEnd(c)
    ensures Terminals(c, i) <= Terminals(c, j)
  {
    if i < j {
      TerminalsGrow(c, i, j - 1);
    }
  }

  lemma {:induction false} LinesOfPills(c: Config, j: nat, h: string)
    requires j <= c.requesters
    ensures Lines(c, |c.names| + j, h) == Lines(c, |c.names|, h)
  {
    if j > 0 {
      LinesOfPills(c, j - 1, h);
    }
  }

  // ---- the program itself, updated in place

  /** Its queues, the position of each thread in its loop, the threads' counters and the two
      logs. How many items have been fetched is known to the proof only. */
  class Lookup {
    const c: Config
    const reqs: array<Requester>
    const ress: array<Resolver>
    const filesBy: array<nat>
    const hostsBy: array<nat>
    var main: nat
    var files: seq<string>
    var hosts: seq<string>
    var serviced: seq<string>
    var results: seq<(string, string)>
    ghost var fetched: nat

    ghost function Abs(): State
      reads this, reqs, ress, filesBy, hostsBy
    {
      State(main, files, hosts, reqs[..], ress[..], filesBy[..], hostsBy[..], serviced, results, fetched)
    }

    ghost predicate Valid()
      reads this, reqs, ress, filesBy, hostsBy
    {
      filesBy != hostsBy && WellShaped(c, Abs())
    }

    constructor (c: Config)
      ensures this.c == c && Valid() && Abs() == Init(c)
      ensures fresh(reqs) && fresh(ress) && fresh(filesBy) && fresh(hostsBy)
    {
      this.c := c;
      reqs := new Requester[c.requesters](i => Fetching);
      ress := new Resolver[c.resolvers](i => Taking);
      filesBy := new nat[c.requesters](i => 0);
      hostsBy := new nat[c.resolvers](i => 0);
      main, fetched := 0, 0;
      files, hosts, serviced, results := [], [], [], [];
    }

    /** main's next step: feed names, then pills, join, then pills, join. */
    method MainStep()
      requires Valid() && Enabled(c, Abs(), Main)
      modifies this`main, this`files, this`hosts
      ensures Valid() && Abs() == Step(c, old(Abs()), Main)
    {
      if main < |c.names| {
        files := files + [c.names[main]];
      } else if main < |c.names| + c.requesters {
        files := files + [c.poison];
      } else if main >= |c.names| + 2 * c.requesters && main < |c.names| + 2 * c.requesters + c.resolvers {
        hosts := hosts + [c.poison];
      }
      main := main + 1;
    }

    /** A requester's next step. */
    method RequesterMove(t: nat)
      requires Valid() && Enabled(c, Abs(), Req(t))
      modifies this`files, this`hosts, this`serviced, this`fetched, reqs, filesBy
      ensures Valid() && Abs() == Step(c, old(Abs()), Req(t))
    {
      ghost var after := Step(c, Abs(), Req(t));
      match reqs[t] {
        case Fetching =>
          var item := files[0];
          files := files[1..];
          fetched := fetched + 1;
          if item == c.poison {
            reqs[t] := Gone;
          } else {
            var file := c.open(item);
            if file.None? {
              reqs[t] := Gone;
            } else {
              reqs[t] := Reading(file.value);
            }
          }
        case Reading(rest) =>
          if rest == [] {
            filesBy[t] := filesBy[t] + 1;
            reqs[t] := Fetching;
          } else {
            hosts := hosts + [rest[0]];
            reqs[t] := Logging(rest[0], rest[1..]);
          }
        case Logging(line, rest) =>
          serviced := serviced + [line];
          reqs[t] := Reading(rest);
      }
      assert Abs() == after;
    }

    /** A resolver's next step. */
    method ResolverMove(t: nat)
      requires Valid() && Enabled(c, Abs(), Res(t))
      modifies this`hosts, this`results, ress, hostsBy
      ensures Valid() && Abs() == Step(c, old(Abs()), Res(t))
    {
      ghost var after := Step(c, Abs(), Res(t));
      match ress[t] {
        case Taking =>
          var item := hosts[0];
          hosts := hosts[1..];
          if item == c.poison {
            ress[t] := Away;
          } else {
            ress[t] := Resolving(item);
          }
        case Resolving(host) =>
          results := results + [(host, c.lookup(host))];
          hostsBy[t] := hostsBy[t] + 1;
          ress[t] := Taking;
      }
      assert Abs() == after;
    }

    /** The threads, interleaved as the scheduler says. */
    method Execute(sched: seq<Actor>)
      requires Valid() && RunFrom(c, Abs(), sched)
      modifies this, reqs, ress, filesBy, hostsBy
      ensures Valid() && Abs() == Run(c, old(Abs()), sched)
    {
      hide Step, Enabled;
      assert sched[0..] == sched;
      for i := 0 to |sched|
        invariant Valid() && RunFrom(c, Abs(), sched[i..])
        invariant Run(c, Abs(), sched[i..]) == Run(c, old(Abs()), sched)
      {
        assert sched[i..][0] == sched[i] && sched[i..][1..] == sched[i + 1..];
        match sched[i] {
          case Main => MainStep();
          case Req(t) => RequesterMove(t);
          case Res(t) => ResolverMove(t);
        }
      }
    }
  }
}
