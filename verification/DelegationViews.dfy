/** Who is shown which delegated run: the starts of any sessions, the cache, and asks that wait for the
    backend, interleaved at every await. Every run belongs to the session whose start made it. */
module DelegationViews {
  import opened Wrappers
  import opened TextCodec
  import opened DelegationSource
  import opened DelegationStamp
  import opened Delegation
  import opened DelegationSafety
  import opened DelegationLimits

  const MIN_POLL_MS: int := 1000
  const MAX_ANSWER: nat := 8000
  const COLON: nat := 0x3A
  const ELLIPSIS: nat := 0x2026

  /** What a session is shown; run: which run it is of. */
  datatype Shown = Shown(run: nat, settled: bool, answer: Option<Text>)
  datatype Cached = Cached(at: int, value: Shown)

  /** An ask that the cache did not answer; held: the answer the cache had for it when it began. */
  datatype Ask = Ask(session: Id, run: Text, held: Option<Text>, open: bool)
  datatype Service = Service(starts: World, cache: map<Text, Cached>, asks: seq<Ask>)

  /** Came: the backend's reply to an ask, with the status it had seen and the answer the run's machine
      would give. Failed: no reply, or an error. */
  datatype Step =
    | OfStart(e: Event, now: int)
    | Asks(session: Id, run: Text, force: bool, now: int)
    | Came(j: nat, now: int, settled: bool, answer: Option<Text>)
    | Failed(j: nat)

  function CacheKey(session: Text, run: Text): Text {
    session + [COLON] + run
  }

  function Bounded(answer: Text): Text {
    if |answer| > MAX_ANSWER then answer[..MAX_ANSWER - 1] + [ELLIPSIS] else answer
  }

  function Recent(cache: map<Text, Cached>, session: Text, run: Text, force: bool, now: int): Option<Shown> {
    var key := CacheKey(session, run);
    if !force && key in cache && now - cache[key].at < MIN_POLL_MS then Some(cache[key].value) else None
  }

  function HeldAnswer(cache: map<Text, Cached>, session: Text, run: Text): Option<Text> {
    var key := CacheKey(session, run);
    if key in cache then cache[key].value.answer else None
  }

  function WithName(runs: seq<Run>, name: Text): (k: Option<nat>)
    ensures k.Some? ==> k.value < |runs| && runs[k.value].name == name
    ensures k.None? ==> forall j :: 0 <= j < |runs| ==> runs[j].name != name
  {
    if runs == [] then None
    else
      var n := |runs| - 1;
      var k := WithName(runs[..n], name);
      if k.Some? then k else if runs[n].name == name then Some(n) else None
  }

  /** The run an ask is for, if its source names the asking session. */
  function Finds(runs: seq<Run>, session: Id, run: Text): (k: Option<nat>)
    ensures k.Some? ==> k.value < |runs| && runs[k.value].name == run && ChildOf(runs[k.value], session)
  {
    var k := WithName(runs, run);
    if k.Some? && ChildOf(runs[k.value], session) then k else None
  }

  function AnswerFor(held: Option<Text>, settled: bool, answer: Option<Text>): Option<Text> {
    var found := if !settled then None else if held.Some? then held else answer;
    if found.Some? && found.value != [] then Some(Bounded(found.value)) else None
  }

  /** The run a start comes back with, once the backend answered. */
  function Returns(w: World, e: Event): (k: Option<nat>)
    ensures k.Some? ==> e.Answered? && e.i < |w.calls| && w.calls[e.i].phase.Starting? && w.calls[e.i].phase.got == k
  {
    if e.Answered? && e.ok && e.i < |w.calls| && w.calls[e.i].phase.Starting? && w.calls[e.i].phase.asked then
      w.calls[e.i].phase.got
    else None
  }

  /** The listed run a start comes back with, because it has its key. */
  function Recalls(w: World, e: Event): (k: Option<nat>)
    ensures k.Some? ==> e.Listed? && e.i < |w.calls| && w.calls[e.i].phase.Listing? && w.calls[e.i].phase.seen.Some?
  {
    if e.Listed? && e.ok && e.i < |w.calls| && w.calls[e.i].phase.Listing? && w.calls[e.i].phase.seen.Some? then
      Existing(w.calls[e.i], w.calls[e.i].phase.seen.value)
    else None
  }

  function Noted(s: Service, session: Id, k: nat, value: Shown, now: int): map<Text, Cached>
    requires k < |s.starts.runs|
  {
    s.cache[CacheKey(session, s.starts.runs[k].name) := Cached(now, value)]
  }

  function Close(s: Service, j: nat): Service
    requires j < |s.asks|
  {
    s.(asks := s.asks[j := s.asks[j].(open := false)])
  }

  predicate Open(s: Service, j: nat) {
    j < |s.asks| && s.asks[j].open
  }

  function Next(s: Service, e: Step): Service {
    match e
    case OfStart(e, now) =>
      var k := Returns(s.starts, e);
      s.(starts := Do(s.starts, e),
         cache := if k.None? || k.value >= |s.starts.runs| then s.cache
                  else Noted(s, s.starts.calls[e.i].session, k.value, Shown(k.value, s.starts.runs[k.value].settled, None), now))
    case Asks(session, run, force, now) =>
      if Recent(s.cache, session, run, force, now).Some? then s
      else s.(asks := s.asks + [Ask(session, run, HeldAnswer(s.cache, session, run), true)])
    case Came(j, now, settled, answer) =>
      if !Open(s, j) then s
      else
        var ask := s.asks[j];
        var k := Finds(s.starts.runs, ask.session, ask.run);
        if k.None? then Close(s, j)
        else Close(s, j).(cache := Noted(s, ask.session, k.value, Shown(k.value, settled, AnswerFor(ask.held, settled, answer)), now))
    case Failed(j) => if Open(s, j) then Close(s, j) else s
  }

  /** What a step shows, and to whom. */
  function ShownBy(s: Service, e: Step): Option<Shown> {
    match e
    case OfStart(e, now) =>
      if Returns(s.starts, e).Some? && Returns(s.starts, e).value < |s.starts.runs| then
        Some(Shown(Returns(s.starts, e).value, s.starts.runs[Returns(s.starts, e).value].settled, None))
      else if Recalls(s.starts, e).Some? then
        Some(Shown(Recalls(s.starts, e).value, s.starts.calls[e.i].phase.seen.value[Recalls(s.starts, e).value].settled, None))
      else None
    case Asks(session, run, force, now) => Recent(s.cache, session, run, force, now)
    case Came(j, now, settled, answer) =>
      if !Open(s, j) then None
      else
        var k := Finds(s.starts.runs, s.asks[j].session, s.asks[j].run);
        if k.None? then None else Some(Shown(k.value, settled, AnswerFor(s.asks[j].held, settled, answer)))
    case Failed(j) => None
  }

  function Viewer(s: Service, e: Step): Id {
    match e
    case OfStart(e, now) =>
      if (e.Answered? || e.Listed?) && e.i < |s.starts.calls| then s.starts.calls[e.i].session else []
    case Asks(session, run, force, now) => session
    case Came(j, now, settled, answer) => if j < |s.asks| then s.asks[j].session else []
    case Failed(j) => []
  }

  function After(merges: bool, steps: seq<Step>): Service {
    if steps == [] then Service(Start(merges), map[], [])
    else Next(After(merges, steps[..|steps| - 1]), steps[|steps| - 1])
  }

  // ---- Sessions that share ---------------------------------------------------------------

  /** Two sessions can make the same cache key when one id followed by a colon begins the other. */
  predicate Mixes(s: Text, s': Text) {
    s + [COLON] <= s' || s' + [COLON] <= s
  }

  lemma SharedKeyJustWhen(s: Text, s': Text)
    ensures (exists r: Text, r': Text :: CacheKey(s, r) == CacheKey(s', r')) <==> s == s' || Mixes(s, s')
  {
    if s == s' {
      assert CacheKey(s, []) == CacheKey(s', []);
    } else if Mixes(s, s') {
      var r, r' := RunsWithOneKey(s, s');
    }
    forall r: Text, r': Text | CacheKey(s, r) == CacheKey(s', r') ensures s == s' || Mixes(s, s') {
      OneBeginsOther(s, s', CacheKey(s, r));
    }
  }

  lemma SharedKey(s: Text, s': Text, r': Text)
    requires s + [COLON] <= s'
    ensures CacheKey(s, s'[|s| + 1..] + [COLON] + r') == CacheKey(s', r')
  {
    var rest := s'[|s| + 1..];
    assert s' == s + [COLON] + rest;
    assert s + [COLON] + (rest + [COLON] + r') == (s + [COLON] + rest) + [COLON] + r';
  }

  lemma RunsWithOneKey(s: Text, s': Text) returns (r: Text, r': Text)
    requires Mixes(s, s')
    ensures CacheKey(s, r) == CacheKey(s', r')
  {
    r, r' := [], [];
    if s + [COLON] <= s' {
      r := s'[|s| + 1..] + [COLON] + r';
      SharedKey(s, s', r');
    } else {
      r' := s[|s'| + 1..] + [COLON] + r;
      SharedKey(s', s, r);
    }
  }

  lemma OneBeginsOther(s: Text, s': Text, key: Text)
    requires s + [COLON] <= key && s' + [COLON] <= key
    ensures s == s' || Mixes(s, s')
  {
    var a, b := s + [COLON], s' + [COLON];
    assert a == key[..|a|] && b == key[..|b|];
    if |s| == |s'| {
      assert s == a[..|s|] && s' == b[..|s|];
    } else if |s| < |s'| {
      assert s' == b[..|s'|] == key[..|s'|];
      assert a == s'[..|a|];
    } else {
      assert s == a[..|s|] == key[..|s|];
      assert b == s[..|b|];
    }
  }

  /** A source that names a session, or that its start looks for, is of a run of an alike session. */
  lemma SameMeansAlike(owner: Id, session: Id)
    requires CanStart(owner) && Repair(session) == Plain(owner)
    ensures Alike(owner, session)
  {
    hide Repair, Trim;
    PlainExact(owner);
    RepairTidy(session);
    TrimExact(session);
  }

  // ---- Whose run is shown ----------------------------------------------------------------

  predicate Shares(owner: Id, session: Id) {
    owner == session || Alike(owner, session)
  }

  /** An entry of the cache is of a run that a session taking part came by. */
  ghost predicate EntryOk(s: Service, key: Text, among: set<Id>) {
    key in s.cache && s.cache[key].value.run < |s.starts.runs| &&
    exists x :: x in among && EntryOf(s.starts.runs[s.cache[key].value.run], key, x)
  }

  predicate EntryOf(r: Run, key: Text, session: Id) {
    key == CacheKey(session, r.name) && Shares(r.made.session, session)
  }

  ghost predicate Among(s: Service, among: set<Id>) {
    (forall i :: 0 <= i < |s.starts.calls| ==> s.starts.calls[i].session in among) &&
    (forall k :: 0 <= k < |s.starts.runs| ==> s.starts.runs[k].made.session in among) &&
    (forall j :: 0 <= j < |s.asks| ==> s.asks[j].session in among)
  }

  ghost predicate ServiceOk(s: Service, among: set<Id>) {
    Inv(s.starts) && Among(s, among) && forall key :: key in s.cache ==> EntryOk(s, key, among)
  }

  predicate From(e: Step, among: set<Id>) {
    (e.OfStart? && e.e.Begin? ==> e.e.session in among) && (e.Asks? ==> e.session in among)
  }

  /** What the backend answers a start with was made by the same session or an alike one. */
  lemma ReturnedShares(w: World, e: Event)
    requires Inv(w) && Returns(w, e).Some?
    ensures var k := Returns(w, e).value; k < |w.runs| && Shares(w.runs[k].made.session, w.calls[e.i].session)
  {
    var call, k := w.calls[e.i], Returns(w, e).value;
    assert CallOk(w.runs, call);
    var r := w.runs[k];
    assert RunOk(r);
    hide Inv, RunsOk, CallOk, Plain, Joins, Trim, Encode, SourceOf;
    if r.made.session != call.session {
      NoKeyNotUnique(call.session, call.key);
      NoKeyNotUnique(r.made.session, r.made.key);
      SharedMeansAlike(r.made.session, r.made.key, call.session, call.key);
    }
  }

  lemma NoKeyNotUnique(session: Id, key: Id)
    ensures Unique(session, key).Some? ==> key != []
  {}

  /** A listed run that a start looked for was made by an alike session. */
  lemma RecalledShares(w: World, e: Event)
    requires Inv(w) && Recalls(w, e).Some?
    ensures var k := Recalls(w, e).value;
      k < |w.calls[e.i].phase.seen.value| && k < |w.runs| && Alike(w.runs[k].made.session, w.calls[e.i].session)
  {
    var call, k := w.calls[e.i], Recalls(w, e).value;
    assert CallOk(w.runs, call);
    var r := w.runs[k];
    assert RunOk(r) && r.source == SourceOf(call.session, call.phase.context, call.key);
    hide Inv, RunsOk, CallOk, SourceOf, Plain, Alike;
    assert [r][0] == r;
    KeyFindsRunJustWhen(r, call.session, call.phase.context, call.key);
    OwnerCanStart(r);
    SameMeansAlike(r.made.session, call.session);
  }

  lemma OwnerCanStart(r: Run)
    requires RunOk(r)
    ensures CanStart(r.made.session)
  {}

  /** A run whose source names a session was made by it or by an alike one. */
  lemma FoundShares(r: Run, session: Id)
    requires RunOk(r) && ChildOf(r, session)
    ensures Alike(r.made.session, session)
  {
    hide Alike, Plain, ChildOf;
    ChildJustWhen(r, session);
    OwnerCanStart(r);
    PlainIsRepaired(r.made.session);
    SameMeansAlike(r.made.session, session);
  }

  lemma PlainIsRepaired(session: Id)
    ensures IsText(Plain(session)) && Repair(Plain(session)) == Plain(session)
  {
    RepairTwice(Trim(session));
  }

  // ---- Every step keeps it ------------------------------------------------------------------

  /** Runs keep their names and starters, and come after one another. */
  ghost predicate Grows(runs: seq<Run>, runs': seq<Run>) {
    |runs| <= |runs'| && forall k :: 0 <= k < |runs| ==> runs'[k].name == runs[k].name && runs'[k].made == runs[k].made
  }

  lemma RunsGrow(w: World, e: Event)
    ensures Grows(w.runs, Do(w, e).runs)
  {
    hide Stamp, WithUnique, WithSource, Active, GoodKey;
  }

  /** New runs are made by, and new calls are of, sessions taking part. */
  lemma StartsAmong(w: World, e: Event, among: set<Id>)
    requires (forall i :: 0 <= i < |w.calls| ==> w.calls[i].session in among)
    requires (forall k :: 0 <= k < |w.runs| ==> w.runs[k].made.session in among)
    requires e.Begin? ==> e.session in among
    ensures forall i :: 0 <= i < |Do(w, e).calls| ==> Do(w, e).calls[i].session in among
    ensures forall k :: 0 <= k < |Do(w, e).runs| ==> Do(w, e).runs[k].made.session in among
  {
    hide Stamp, WithUnique, WithSource, Active, GoodKey;
  }

  lemma EntryKept(s: Service, s': Service, key: Text, among: set<Id>)
    requires EntryOk(s, key, among) && Grows(s.starts.runs, s'.starts.runs)
    requires key in s'.cache && s'.cache[key] == s.cache[key]
    ensures EntryOk(s', key, among)
  {
    hide Shares;
  }

  lemma EntryMade(s: Service, key: Text, session: Id, k: nat, among: set<Id>)
    requires key in s.cache && s.cache[key].value.run == k < |s.starts.runs| && session in among
    requires key == CacheKey(session, s.starts.runs[k].name) && Shares(s.starts.runs[k].made.session, session)
    ensures EntryOk(s, key, among)
  {
    assert EntryOf(s.starts.runs[k], key, session);
  }

  lemma StartKeeps(s: Service, e: Event, now: int, among: set<Id>)
    requires ServiceOk(s, among) && From(OfStart(e, now), among)
    ensures ServiceOk(Next(s, OfStart(e, now)), among)
  {
    StartParts(s, e, among);
    StartEntries(s, e, now, among);
    NextStarts(s, e, now);
    hide *;
    ServiceIs(Next(s, OfStart(e, now)), among);
  }

  lemma ServiceIs(s: Service, among: set<Id>)
    requires Inv(s.starts) && Among(s, among) && forall key :: key in s.cache ==> EntryOk(s, key, among)
    ensures ServiceOk(s, among)
  {}

  lemma NextStarts(s: Service, e: Event, now: int)
    ensures Next(s, OfStart(e, now)).starts == Do(s.starts, e) && Next(s, OfStart(e, now)).asks == s.asks
  {
    hide Do, Returns;
  }

  lemma StartParts(s: Service, e: Event, among: set<Id>)
    requires ServiceOk(s, among) && From(OfStart(e, 0), among)
    ensures Inv(Do(s.starts, e)) && forall s': Service :: s'.starts == Do(s.starts, e) && s'.asks == s.asks ==> Among(s', among)
  {
    hide EntryOk, Do, Inv;
    DoInv(s.starts, e);
    StartsAmong(s.starts, e, among);
  }

  lemma StartEntries(s: Service, e: Event, now: int, among: set<Id>)
    requires ServiceOk(s, among)
    ensures var s' := Next(s, OfStart(e, now)); forall key :: key in s'.cache ==> EntryOk(s', key, among)
  {
    var s' := Next(s, OfStart(e, now));
    hide Inv, Do, Shares, EntryOk;
    RunsGrow(s.starts, e);
    hide Grows;
    if Returns(s.starts, e).Some? {
      ReturnedShares(s.starts, e);
      var session, k := s.starts.calls[e.i].session, Returns(s.starts, e).value;
      hide Returns;
      forall key | key in s'.cache ensures EntryOk(s', key, among) {
        if key != CacheKey(session, s.starts.runs[k].name) {
          EntryKept(s, s', key, among);
        } else {
          StillThere(s.starts.runs, s'.starts.runs, k);
          EntryMade(s', key, session, k, among);
        }
      }
    } else {
      hide Returns;
      forall key | key in s'.cache ensures EntryOk(s', key, among) {
        EntryKept(s, s', key, among);
      }
    }
  }

  lemma StillThere(runs: seq<Run>, runs': seq<Run>, k: nat)
    requires Grows(runs, runs') && k < |runs|
    ensures k < |runs'| && runs'[k].name == runs[k].name && runs'[k].made == runs[k].made
  {}

  lemma CameKeeps(s: Service, j: nat, now: int, settled: bool, answer: Option<Text>, among: set<Id>)
    requires ServiceOk(s, among)
    ensures ServiceOk(Next(s, Came(j, now, settled, answer)), among)
  {
    var s' := Next(s, Came(j, now, settled, answer));
    CameAmong(s, j, now, settled, answer, among);
    ServiceParts(s, among);
    if Open(s, j) && Finds(s.starts.runs, s.asks[j].session, s.asks[j].run).Some? {
      var session, k := s.asks[j].session, Finds(s.starts.runs, s.asks[j].session, s.asks[j].run).value;
      assert session in among by { AskerIn(s, j, among); }
      var key, c := CacheKey(session, s.starts.runs[k].name), s'.cache[CacheKey(session, s.starts.runs[k].name)];
      assert s'.cache == s.cache[key := c] && c.value.run == k;
      hide *;
      AllMadeOk(s.starts, k);
      FoundIsShared(s.starts.runs[k], session);
      EntryAdded(s, s', key, c, session, k, among);
    } else {
      assert s'.cache == s.cache && s'.starts == s.starts;
      hide *;
      SameEntries(s, s', among);
    }
    ServiceIs(s', among);
  }

  lemma AskerIn(s: Service, j: nat, among: set<Id>)
    requires Among(s, among) && j < |s.asks|
    ensures s.asks[j].session in among
  {}

  lemma ServiceParts(s: Service, among: set<Id>)
    requires ServiceOk(s, among)
    ensures Inv(s.starts) && Among(s, among) && forall key :: key in s.cache ==> EntryOk(s, key, among)
  {}

  lemma CameAmong(s: Service, j: nat, now: int, settled: bool, answer: Option<Text>, among: set<Id>)
    requires ServiceOk(s, among)
    ensures var s' := Next(s, Came(j, now, settled, answer)); s'.starts == s.starts && Among(s', among)
  {
    hide Inv, EntryOk, Finds, AnswerFor, CacheKey;
  }

  lemma EntryAdded(s: Service, s': Service, key: Text, c: Cached, session: Id, k: nat, among: set<Id>)
    requires s'.starts == s.starts && s'.cache == s.cache[key := c] && c.value.run == k < |s.starts.runs| && session in among
    requires key == CacheKey(session, s.starts.runs[k].name) && Shares(s.starts.runs[k].made.session, session)
    requires forall key' :: key' in s.cache ==> EntryOk(s, key', among)
    ensures forall key' :: key' in s'.cache ==> EntryOk(s', key', among)
  {
    hide EntryOk, Shares, CacheKey;
    forall key' | key' in s'.cache ensures EntryOk(s', key', among) {
      if key' != key {
        EntryKept(s, s', key', among);
      } else {
        EntryMade(s', key, session, k, among);
      }
    }
  }

  lemma FoundIsShared(r: Run, session: Id)
    requires RunOk(r) && ChildOf(r, session)
    ensures Shares(r.made.session, session)
  {
    FoundShares(r, session);
  }

  lemma AllMadeOk(w: World, k: nat)
    requires Inv(w) && k < |w.runs|
    ensures RunOk(w.runs[k])
  {}

  lemma SameEntries(s: Service, s': Service, among: set<Id>)
    requires ServiceOk(s, among) && s'.starts == s.starts && s'.cache == s.cache
    ensures forall key :: key in s'.cache ==> EntryOk(s', key, among)
  {
    hide Inv;
    forall key | key in s'.cache ensures EntryOk(s', key, among) {
      EntryKept(s, s', key, among);
    }
  }

  lemma AskKeeps(s: Service, e: Step, among: set<Id>)
    requires ServiceOk(s, among) && From(e, among) && (e.Asks? || e.Failed?)
    ensures ServiceOk(Next(s, e), among)
  {
    hide Inv, EntryOk, Recent, HeldAnswer;
    SameEntries(s, Next(s, e), among);
  }

  lemma NextKeeps(s: Service, e: Step, among: set<Id>)
    requires ServiceOk(s, among) && From(e, among)
    ensures ServiceOk(Next(s, e), among)
  {
    hide *;
    match e
    case OfStart(e, now) => StartKeeps(s, e, now, among);
    case Came(j, now, settled, answer) => CameKeeps(s, j, now, settled, answer, among);
    case Asks(session, run, force, now) => AskKeeps(s, e, among);
    case Failed(j) => AskKeeps(s, e, among);
  }

  lemma {:induction false} AllKeep(merges: bool, steps: seq<Step>, among: set<Id>)
    requires forall i :: 0 <= i < |steps| ==> From(steps[i], among)
    ensures ServiceOk(After(merges, steps), among)
  {
    hide Next, From, ServiceOk;
    if steps == [] {
      NothingShown(merges, among);
    } else {
      AllKeep(merges, steps[..|steps| - 1], among);
      NextKeeps(After(merges, steps[..|steps| - 1]), steps[|steps| - 1], among);
    }
  }

  lemma NothingShown(merges: bool, among: set<Id>)
    ensures ServiceOk(After(merges, []), among)
  {
    AllInv(merges, []);
    hide Inv;
  }

  // ---- Theorems ------------------------------------------------------------------------------

  /** Someone with that id can ask for an entry of session x; plain: the names of runs have no colon. */
  predicate Sees(x: Id, asker: Id, plain: bool) {
    x == asker || asker + [COLON] <= x || (!plain && x + [COLON] <= asker)
  }

  /** A session that the owner's runs are given to, and whose entries the asker can hit. */
  predicate Between(owner: Id, x: Id, asker: Id, plain: bool) {
    Shares(owner, x) && Sees(x, asker, plain)
  }

  ghost predicate NamesOk(s: Service, plain: bool) {
    plain ==> forall k :: 0 <= k < |s.starts.runs| ==> COLON !in s.starts.runs[k].name
  }

  predicate PlainName(e: Step) {
    e.OfStart? && e.e.Create? ==> COLON !in e.e.name
  }

  lemma NamesKept(s: Service, e: Step, plain: bool)
    requires NamesOk(s, plain) && (plain ==> PlainName(e))
    ensures NamesOk(Next(s, e), plain)
  {
    if e.OfStart? {
      NextStarts(s, e.e, e.now);
      NewNames(s.starts, e.e);
      hide Next, Do;
    } else {
      hide Finds, Recent, HeldAnswer, AnswerFor;
    }
  }

  lemma NewNames(w: World, e: Event)
    ensures forall k :: 0 <= k < |Do(w, e).runs| ==>
      (if k < |w.runs| then Do(w, e).runs[k].name == w.runs[k].name else e.Create? && Do(w, e).runs[k].name == e.name)
  {
    hide Stamp, WithUnique, WithSource, Active, GoodKey;
  }

  lemma {:induction false} NamesStay(merges: bool, steps: seq<Step>, plain: bool)
    requires plain ==> forall i :: 0 <= i < |steps| ==> PlainName(steps[i])
    ensures NamesOk(After(merges, steps), plain)
  {
    hide Next, PlainName;
    if steps != [] {
      NamesStay(merges, steps[..|steps| - 1], plain);
      hide NamesOk;
      NamesKept(After(merges, steps[..|steps| - 1]), steps[|steps| - 1], plain);
    }
  }

  /** Whatever is shown was made by the viewer, given to it, or given to a session whose entries it hits. */
  lemma ShownBetween(s: Service, e: Step, among: set<Id>, plain: bool)
    requires ServiceOk(s, among) && NamesOk(s, plain) && ShownBy(s, e).Some? && From(e, among)
    ensures var k := ShownBy(s, e).value.run;
      k < |s.starts.runs| && s.starts.runs[k].made.session in among &&
      exists x :: x in among && Between(s.starts.runs[k].made.session, x, Viewer(s, e), plain)
  {
    hide *;
    match e
    case OfStart(e, now) => StartBetween(s, e, now, among, plain);
    case Asks(session, run, force, now) =>
      HitIs(s, session, run, force, now);
      HitBetween(s, session, run, among, plain);
    case Came(j, now, settled, answer) => CameBetween(s, j, now, settled, answer, among, plain);
    case Failed(j) => NothingFailed(s, j);
  }

  lemma NothingFailed(s: Service, j: nat)
    ensures ShownBy(s, Failed(j)).None?
  {}

  lemma HitIs(s: Service, session: Id, run: Text, force: bool, now: int)
    requires ShownBy(s, Asks(session, run, force, now)).Some?
    ensures CacheKey(session, run) in s.cache && Viewer(s, Asks(session, run, force, now)) == session
    ensures ShownBy(s, Asks(session, run, force, now)).value == s.cache[CacheKey(session, run)].value
  {}

  lemma StartBetween(s: Service, e: Event, now: int, among: set<Id>, plain: bool)
    requires ServiceOk(s, among) && ShownBy(s, OfStart(e, now)).Some?
    ensures var k := ShownBy(s, OfStart(e, now)).value.run;
      k < |s.starts.runs| && s.starts.runs[k].made.session in among &&
      exists x :: x in among && Between(s.starts.runs[k].made.session, x, Viewer(s, OfStart(e, now)), plain)
  {
    hide Inv, EntryOk, Alike;
    if Returns(s.starts, e).Some? {
      ReturnedShares(s.starts, e);
    } else {
      RecalledShares(s.starts, e);
    }
    var k := ShownBy(s, OfStart(e, now)).value.run;
    assert Between(s.starts.runs[k].made.session, s.starts.calls[e.i].session, Viewer(s, OfStart(e, now)), plain);
  }

  lemma CameBetween(s: Service, j: nat, now: int, settled: bool, answer: Option<Text>, among: set<Id>, plain: bool)
    requires ServiceOk(s, among) && ShownBy(s, Came(j, now, settled, answer)).Some?
    ensures var e := Came(j, now, settled, answer);
      var k := ShownBy(s, e).value.run;
      k < |s.starts.runs| && s.starts.runs[k].made.session in among &&
      exists x :: x in among && Between(s.starts.runs[k].made.session, x, Viewer(s, e), plain)
  {
    hide Inv, EntryOk, Alike, AnswerFor;
    var k := Finds(s.starts.runs, s.asks[j].session, s.asks[j].run).value;
    AllMadeOk(s.starts, k);
    FoundShares(s.starts.runs[k], s.asks[j].session);
    assert Between(s.starts.runs[k].made.session, s.asks[j].session, s.asks[j].session, plain);
  }

  lemma HitBetween(s: Service, session: Id, run: Text, among: set<Id>, plain: bool)
    requires ServiceOk(s, among) && NamesOk(s, plain) && CacheKey(session, run) in s.cache
    ensures var k := s.cache[CacheKey(session, run)].value.run;
      k < |s.starts.runs| && s.starts.runs[k].made.session in among &&
      exists x :: x in among && Between(s.starts.runs[k].made.session, x, session, plain)
  {
    var key := CacheKey(session, run);
    assert EntryOk(s, key, among);
    hide Inv, Alike, Shares;
    var r := s.starts.runs[s.cache[key].value.run];
    var x :| x in among && EntryOf(r, key, x);
    HitSees(x, session, r.name, run, plain);
    assert Between(r.made.session, x, session, plain);
  }

  lemma HitSees(x: Id, asker: Id, name: Text, run: Text, plain: bool)
    requires CacheKey(x, name) == CacheKey(asker, run) && (plain ==> COLON !in name)
    ensures Sees(x, asker, plain)
  {
    var key := CacheKey(x, name);
    assert x + [COLON] <= key && asker + [COLON] <= key;
    OneBeginsOther(x, asker, key);
    if x != asker && x + [COLON] <= asker {
      assert key[|asker|] == COLON && |x| < |asker|;
      assert name == key[|x| + 1..] && name[|asker| - |x| - 1] == COLON;
    }
  }

  /** No two of the sessions share a cache key or can be taken for one another. */
  predicate Apart(among: set<Id>) {
    forall x, y :: x in among && y in among && x != y ==> !Mixes(x, y) && !Alike(x, y)
  }

  /** Whatever starts, asks and replies interleave: a session is shown only runs it started itself, as
      long as no two of the sessions share cache keys or are alike to the control plane. */
  lemma OnlyParentsSee(merges: bool, steps: seq<Step>, e: Step, among: set<Id>)
    requires (forall i :: 0 <= i < |steps| ==> From(steps[i], among)) && From(e, among) && Apart(among)
    ensures var s := After(merges, steps);
      ShownBy(s, e).Some? ==>
        ShownBy(s, e).value.run < |s.starts.runs| && s.starts.runs[ShownBy(s, e).value.run].made.session == Viewer(s, e)
  {
    hide *;
    AllKeep(merges, steps, among);
    NamesFree(After(merges, steps));
    var s := After(merges, steps);
    if ShownBy(s, e).Some? {
      ShownBetween(s, e, among, false);
      ViewerTakesPart(s, e, among);
      var owner := s.starts.runs[ShownBy(s, e).value.run].made.session;
      var x :| x in among && Between(owner, x, Viewer(s, e), false);
      ApartOwn(among, owner, x, Viewer(s, e));
    }
  }

  lemma NamesFree(s: Service)
    ensures NamesOk(s, false)
  {}

  lemma ApartOwn(among: set<Id>, owner: Id, x: Id, viewer: Id)
    requires Apart(among) && owner in among && x in among && viewer in among && Between(owner, x, viewer, false)
    ensures owner == viewer
  {
    hide Alike;
  }

  lemma ViewerTakesPart(s: Service, e: Step, among: set<Id>)
    requires ServiceOk(s, among) && ShownBy(s, e).Some? && From(e, among)
    ensures Viewer(s, e) in among
  {
    hide Inv, EntryOk, Recent, Finds;
  }

  /** Some step shows the asker a run that a start of the owner made. */
  ghost predicate Shows(plain: bool, merges: bool, owner: Id, asker: Id, steps: seq<Step>, e: Step) {
    (plain ==> forall i :: 0 <= i < |steps| ==> PlainName(steps[i])) &&
    var s := After(merges, steps);
    Viewer(s, e) == asker && ShownBy(s, e).Some? && ShownBy(s, e).value.run < |s.starts.runs| &&
    s.starts.runs[ShownBy(s, e).value.run].made.session == owner
  }

  /** The sessions that take part. */
  function Everyone(steps: seq<Step>): set<Id> {
    if steps == [] then {}
    else
      var last := steps[|steps| - 1];
      Everyone(steps[..|steps| - 1]) +
        (if last.OfStart? && last.e.Begin? then {last.e.session} else if last.Asks? then {last.session} else {})
  }

  lemma {:induction false} EveryoneTakesPart(steps: seq<Step>, among: set<Id>)
    requires Everyone(steps) <= among
    ensures forall i :: 0 <= i < |steps| ==> From(steps[i], among)
  {
    if steps != [] {
      EveryoneTakesPart(steps[..|steps| - 1], among);
    }
  }

  /** It takes an owner that can start runs and a session in between. */
  lemma ShownNeeds(plain: bool, merges: bool, owner: Id, asker: Id, steps: seq<Step>, e: Step)
    requires Shows(plain, merges, owner, asker, steps, e)
    ensures CanStart(owner) && exists x :: Between(owner, x, asker, plain)
  {
    var among := Everyone(steps) + Everyone([e]);
    EveryoneTakesPart(steps, among);
    assert [e][..0] == [] && Everyone([e]) == Everyone([]) + Everyone([e]);
    EveryoneTakesPart([e], among);
    assert [e][0] == e;
    AllKeep(merges, steps, among);
    NamesStay(merges, steps, plain);
    var s := After(merges, steps);
    ShownBetween(s, e, among, plain);
    AllMadeOk(s.starts, ShownBy(s, e).value.run);
    OwnerCanStart(s.starts.runs[ShownBy(s, e).value.run]);
  }
}
