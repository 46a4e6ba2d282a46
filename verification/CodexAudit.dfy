/** The independent audit: replaying captured prefixes, and its agreement with the ledger. */
module CodexAudit {
  import opened Folding
  import opened CodexRecords
  import opened CodexParser
  import opened CodexCheckpoint
  import opened CodexLog
  import opened CodexReading
  import opened CodexTail
  import opened CodexDays
  import opened CodexAgreement
  import opened CodexLedger
  import opened CodexReplay

  method AddSettled(env: Env, before: Days, events: seq<TokenEvent>) returns (days: Days)
    ensures days == AddEvents(env, before, events)
  {
    days := before;
    for i := 0 to |events|
      invariant days == AddEvents(env, before, events[..i])
    {
      AccumulateConcat(AddStep(env), events[..i], [events[i]], before);
      AccumulateOne(AddStep(env), events[i], days);
      assert events[..i] + [events[i]] == events[..i + 1];
      days := AddEvent(env, days, events[i]);
    }
    assert events[..|events|] == events;
  }

  /** One file through the audit, up to a byte limit. It fails exactly when the prefix is missing or ends inside
      a record; otherwise it adds the settled events of the one-shot replay. */
  method AuditFile(env: Env, content: Bytes, id: Identity, limit: nat, before: Days, seen: KeySet)
    returns (ok: bool, days: Days)
    modifies seen
    ensures ok <==> limit <= |content| && Ended(content[..limit])
    ensures ok ==> days == AddEvents(env, before, SettleAll(OneShot(env, id, content[..limit]).1, old(seen.keys)).1)
    ensures ok ==> seen.keys == SettleAll(OneShot(env, id, content[..limit]).1, old(seen.keys)).0
  {
    var parser := new RolloutParser(FreshState(id));
    var scanned := 0;
    ghost var events: seq<TokenEvent> := [];
    days := before;
    assert content[0..0] == [];
    while scanned < limit
      invariant scanned <= |content| && scanned <= limit && Boundary(content, 0, scanned)
      invariant Ingested(env, content, 0, scanned, FreshState(id), old(seen.keys), parser.state, seen.keys, events)
      invariant days == AddEvents(env, before, events)
      decreases limit - scanned
    {
      var next, ended := ReadChunk(content, scanned, limit - scanned);
      if !ended {
        NotEnded(content, scanned, next, limit);
        return false, days;
      }
      var more := ConsumeNext(env, content, 0, scanned, next, parser, seen, events, FreshState(id), old(seen.keys));
      AccumulateConcat(AddStep(env), events, more, before);
      days := AddSettled(env, days, more);
      events := events + more;
      scanned := next;
    }
    assert content[0..limit] == content[..limit];
    BoundaryIsEnded(content, 0, limit);
    return true, days;
  }

  lemma NotEnded(content: Bytes, scanned: nat, next: nat, limit: nat)
    requires scanned <= next <= |content| && scanned < limit && next - scanned <= limit - scanned
    requires Plain(content, scanned, next) && (next == |content| || next == limit)
    ensures !(limit <= |content| && Ended(content[..limit]))
  {
    if limit <= |content| {
      assert next == limit;
      assert content[..limit][limit - 1] == content[limit - 1];
    }
  }

  datatype AuditedFile = AuditedFile(name: string, content: Bytes, id: Identity, offset: nat)

  /** The audit of one file as a step: a single poll of the whole captured prefix. */
  function AuditStep(f: AuditedFile): Step {
    Poll(f.name, f.content, f.id, f.offset, f.offset, false)
  }

  function AuditSteps(files: seq<AuditedFile>): seq<Step> {
    if files == [] then [] else AuditSteps(files[..|files| - 1]) + [AuditStep(files[|files| - 1])]
  }

  predicate Auditable(f: AuditedFile) {
    f.offset <= |f.content| && Ended(f.content[..f.offset])
  }

  predicate DistinctNames(files: seq<AuditedFile>) {
    forall i, j | 0 <= i < j < |files| :: files[i].name != files[j].name
  }

  lemma {:induction false} AuditedNames(env: Env, files: seq<AuditedFile>)
    ensures forall f <- Run(env, AuditSteps(files)).files.Keys :: exists i | 0 <= i < |files| :: files[i].name == f
  {
    if files != [] {
      var init, last := files[..|files| - 1], files[|files| - 1];
      assert AuditSteps(files)[..|AuditSteps(files)| - 1] == AuditSteps(init);
      AuditedNames(env, init);
      var l := Run(env, AuditSteps(init));
      assert Run(env, AuditSteps(files)).files.Keys <= l.files.Keys + {last.name};
      forall f | f in Run(env, AuditSteps(files)).files.Keys
        ensures exists i | 0 <= i < |files| :: files[i].name == f
      {
        if f in l.files.Keys {
          var i :| 0 <= i < |init| && init[i].name == f;
          assert files[i].name == f;
        } else {
          assert files[|files| - 1].name == f;
        }
      }
    }
  }

  /** One more audited file is one more poll of a file the ledger has not met. */
  lemma AuditIsPoll(env: Env, files: seq<AuditedFile>, n: nat)
    requires n < |files| && DistinctNames(files) && Auditable(files[n])
    ensures var l, f := Run(env, AuditSteps(files[..n])), files[n];
            var es := OneShot(env, f.id, f.content[..f.offset]).1;
            && Run(env, AuditSteps(files[..n + 1])).days == AddEvents(env, l.days, SettleAll(es, l.keys).1)
            && Run(env, AuditSteps(files[..n + 1])).keys == SettleAll(es, l.keys).0
  {
    var l, f := Run(env, AuditSteps(files[..n])), files[n];
    assert files[..n + 1][..n] == files[..n];
    RunNext(env, AuditSteps(files[..n]), AuditStep(f));
    AuditedNames(env, files[..n]);
    assert f.name !in l.files.Keys;
    NewFilePolled(env, l, f);
  }

  lemma NewFilePolled(env: Env, l: Ledger, f: AuditedFile)
    requires Auditable(f) && f.name !in l.files
    ensures var es := OneShot(env, f.id, f.content[..f.offset]).1;
            && Apply(env, l, AuditStep(f)).days == AddEvents(env, l.days, SettleAll(es, l.keys).1)
            && Apply(env, l, AuditStep(f)).keys == SettleAll(es, l.keys).0
  {
    assert f.content[0..f.offset] == f.content[..f.offset];
    FreshIsCodable(f.id);
  }

  /** The number of files that cannot be replayed. */
  function Unreadable(files: seq<AuditedFile>): nat {
    if files == [] then 0 else
    Unreadable(files[..|files| - 1]) + if Auditable(files[|files| - 1]) then 0 else 1
  }

  /** The audit of a whole ledger, file by file; a file that cannot be replayed is counted as an error. */
  method AuditLedger(env: Env, files: seq<AuditedFile>) returns (days: Days, errors: nat)
    requires DistinctNames(files)
    ensures errors == 0 <==> forall f <- files :: Auditable(f)
    ensures errors == Unreadable(files)
    ensures errors == 0 ==> days == Run(env, AuditSteps(files)).days
  {
    var seen := new KeySet();
    days, errors := map[], 0;
    for i := 0 to |files|
      invariant errors == 0 <==> forall f <- files[..i] :: Auditable(f)
      invariant errors == Unreadable(files[..i])
      invariant errors == 0 ==> days == Run(env, AuditSteps(files[..i])).days
      invariant errors == 0 ==> seen.keys == Run(env, AuditSteps(files[..i])).keys
    {
      var f := files[i];
      var ok, after := AuditFile(env, f.content, f.id, f.offset, days, seen);
      assert ok <==> Auditable(f);
      assert files[..i + 1] == files[..i] + [f] && files[..i + 1][..i] == files[..i];
      if ok {
        AuditIsPoll(env, files, i);
      } else {
        errors := errors + 1;
      }
      days := after;
    }
    assert files[..|files|] == files;
  }

  // ---- The audit agrees with the ledger ----

  predicate CapturedWell(env: Env, ids: map<string, Identity>, headed: set<string>, name: string, captured: Bytes) {
    && name in ids && Ended(captured) && CleanBytes(env, captured)
    && (name in headed && captured != [] ==> HeaderFirst(env, captured))
  }

  lemma {:induction false} CapturedIsWell(env: Env, ids: map<string, Identity>, headed: set<string>, steps: seq<Step>)
    requires Faithful(env, ids, headed, steps)
    ensures forall f <- Captured(steps) :: CapturedWell(env, ids, headed, f, Captured(steps)[f])
  {
    if steps != [] {
      CapturedIsWell(env, ids, headed, steps[..|steps| - 1]);
    }
  }

  predicate AuditsFile(ids: map<string, Identity>, captured: map<string, Bytes>, f: AuditedFile) {
    && f.name in captured && f.name in ids && f.id == ids[f.name] && f.offset <= |f.content|
    && f.content[..f.offset] == captured[f.name]
  }

  /** The audit was given the captured prefixes of a run. */
  predicate AuditsRun(ids: map<string, Identity>, captured: map<string, Bytes>, files: seq<AuditedFile>) {
    && DistinctNames(files)
    && (forall name <- captured :: exists i | 0 <= i < |files| :: files[i].name == name)
    && forall f <- files :: AuditsFile(ids, captured, f)
  }

  function Prefixes(files: seq<AuditedFile>): map<string, Bytes>
    requires forall f <- files :: f.offset <= |f.content|
  {
    if files == [] then map[] else
    var n := |files| - 1;
    Prefixes(files[..n])[files[n].name := files[n].content[..files[n].offset]]
  }

  lemma {:induction false} PrefixesByName(files: seq<AuditedFile>)
    requires DistinctNames(files) && forall f <- files :: f.offset <= |f.content|
    ensures forall i | 0 <= i < |files| ::
              files[i].name in Prefixes(files) && Prefixes(files)[files[i].name] == files[i].content[..files[i].offset]
    ensures forall name <- Prefixes(files) :: exists i | 0 <= i < |files| :: files[i].name == name
  {
    if files != [] {
      var n := |files| - 1;
      PrefixesByName(files[..n]);
      forall name | name in Prefixes(files) ensures exists i | 0 <= i < |files| :: files[i].name == name {
        if name in Prefixes(files[..n]) {
          var i :| 0 <= i < n && files[..n][i].name == name;
          assert files[i].name == name;
        } else {
          assert files[n].name == name;
        }
      }
    }
  }

  lemma {:induction false} AuditCaptures(files: seq<AuditedFile>)
    requires forall f <- files :: f.offset <= |f.content|
    ensures Captured(AuditSteps(files)) == Prefixes(files)
  {
    if files != [] {
      var n := |files| - 1;
      AuditCaptures(files[..n]);
      assert AuditSteps(files)[..|AuditSteps(files)| - 1] == AuditSteps(files[..n]);
    }
  }

  predicate ReadyToAudit(env: Env, ids: map<string, Identity>, headed: set<string>, f: AuditedFile) {
    && f.offset <= |f.content| && f.name in ids && f.id == ids[f.name]
    && CapturedWell(env, ids, headed, f.name, f.content[..f.offset])
  }

  lemma NextAuditIsFaithful(env: Env, ids: map<string, Identity>, headed: set<string>, captured: map<string, Bytes>,
                            f: AuditedFile)
    requires ReadyToAudit(env, ids, headed, f) && f.name !in captured
    ensures FaithfulStep(env, ids, headed, captured, AuditStep(f))
  {
    assert Lookup(captured, f.name, []) == [];
  }

  lemma {:induction false} AuditIsFaithful(env: Env, ids: map<string, Identity>, headed: set<string>,
                                           files: seq<AuditedFile>)
    requires DistinctNames(files) && forall f <- files :: ReadyToAudit(env, ids, headed, f)
    ensures Faithful(env, ids, headed, AuditSteps(files))
  {
    if files != [] {
      var n, init := |files| - 1, files[..|files| - 1];
      AuditIsFaithful(env, ids, headed, init);
      AuditCaptures(init);
      PrefixesByName(init);
      var steps, last := AuditSteps(files), files[n];
      assert steps[..|steps| - 1] == AuditSteps(init) && steps[|steps| - 1] == AuditStep(last);
      assert last in files;
      NextAuditIsFaithful(env, ids, headed, Captured(AuditSteps(init)), last);
    }
  }

  predicate NamesAre(b: map<string, Bytes>, files: seq<AuditedFile>) {
    forall name <- b :: exists i | 0 <= i < |files| :: files[i].name == name
  }

  lemma PrefixesMatch(ids: map<string, Identity>, captured: map<string, Bytes>, files: seq<AuditedFile>,
                      b: map<string, Bytes>)
    requires AuditsRun(ids, captured, files) && NamesAre(b, files)
    requires forall i | 0 <= i < |files| :: files[i].offset <= |files[i].content| && files[i].name in b
                                            && b[files[i].name] == files[i].content[..files[i].offset]
    ensures b == captured
  {
    forall name | name in captured ensures name in b && b[name] == captured[name] {
      var i :| 0 <= i < |files| && files[i].name == name;
      assert AuditsFile(ids, captured, files[i]);
    }
    forall name | name in b ensures name in captured {
      var i :| 0 <= i < |files| && files[i].name == name;
      assert AuditsFile(ids, captured, files[i]);
    }
  }

  lemma AuditCapturesSame(ids: map<string, Identity>, captured: map<string, Bytes>, files: seq<AuditedFile>)
    requires AuditsRun(ids, captured, files)
    ensures Captured(AuditSteps(files)) == captured
  {
    forall f | f in files ensures f.offset <= |f.content| {
      assert AuditsFile(ids, captured, f);
    }
    AuditCaptures(files);
    PrefixesByName(files);
    PrefixesMatch(ids, captured, files, Prefixes(files));
  }

  /** Whatever the polling was, an audit of the captured prefixes reads without errors and arrives at the same
      keys and event count and, where the first claims of different files under one key agree, at the same daily
      totals. */
  lemma AuditAgrees(env: Env, ids: map<string, Identity>, headed: set<string>, steps: seq<Step>,
                    files: seq<AuditedFile>)
    requires Faithful(env, ids, headed, steps) && AuditsRun(ids, Captured(steps), files)
    ensures Captured(steps).Keys <= ids.Keys
    ensures forall f <- files :: Auditable(f)
    ensures var ledger, audit := Run(env, steps), Run(env, AuditSteps(files));
            && ledger.keys == audit.keys && SumEvents(ledger.days) == SumEvents(audit.days)
            && (FirstClaimsAgree(env, OneShots(env, ids, Captured(steps))) ==>
                  SameDays(ledger.days, audit.days, Credited(env, AllEmissions(env, steps))))
  {
    CapturedIsWell(env, ids, headed, steps);
    AuditIsFaithful(env, ids, headed, files);
    AuditCapturesSame(ids, Captured(steps), files);
    PollingDoesNotMatter(env, ids, headed, steps, AuditSteps(files));
  }

  // ---- When the credits depend on the polling ----

  /** The names of a map in some order that starts with a given one. */
  lemma {:induction false} NamesFrom(m: map<string, Bytes>, first: string) returns (names: seq<string>)
    requires first in m
    ensures names != [] && names[0] == first
    ensures (forall i, j | 0 <= i < j < |names| :: names[i] != names[j]) && forall f :: f in names <==> f in m
    decreases |m|
  {
    var rest := m - {first};
    if rest == map[] {
      names := [first];
      assert forall f :: f in m ==> f == first || f in rest;
    } else {
      var next :| next in rest;
      var more := NamesFrom(rest, next);
      names := [first] + more;
      assert first !in more;
    }
  }

  function AuditOf(ids: map<string, Identity>, captured: map<string, Bytes>, names: seq<string>)
    : (files: seq<AuditedFile>)
    requires forall f <- names :: f in captured && f in ids
    ensures |files| == |names|
    ensures forall i | 0 <= i < |files| :: files[i].name == names[i]
  {
    seq(|names|, i requires 0 <= i < |names| =>
      AuditedFile(names[i], captured[names[i]], ids[names[i]], |captured[names[i]]|))
  }

  lemma {:induction false} EmissionsGrow(env: Env, steps: seq<Step>, n: nat)
    requires n <= |steps|
    ensures AllEmissions(env, steps[..n]) <= AllEmissions(env, steps)
  {
    if n < |steps| {
      EmissionsGrow(env, steps[..|steps| - 1], n);
      assert steps[..|steps| - 1][..n] == steps[..n];
    } else {
      assert steps[..n] == steps;
    }
  }

  lemma FirstAudited(env: Env, files: seq<AuditedFile>, f: AuditedFile)
    requires files != [] && files[0] == f && f.offset == |f.content|
    ensures OneShot(env, f.id, f.content).1 <= AllEmissions(env, AuditSteps(files))
  {
    AuditStarts(files);
    EmissionsGrow(env, AuditSteps(files), 1);
    FreshIsCodable(f.id);
    assert f.content[0..f.offset] == f.content;
    var one := [AuditStep(f)];
    assert one[..0] == [] && [] + OneShot(env, f.id, f.content).1 == OneShot(env, f.id, f.content).1;
    assert AllEmissions(env, one) == EmissionsOf(env, EmptyLedger(), AuditStep(f));
  }

  lemma {:induction false} AuditStarts(files: seq<AuditedFile>)
    requires files != []
    ensures AuditSteps(files) != [] && AuditSteps(files)[..1] == [AuditStep(files[0])]
  {
    var n := |files| - 1;
    if n > 0 {
      AuditStarts(files[..n]);
    } else {
      assert files[..0] == [];
    }
  }

  lemma PrefixCredits(env: Env, es: seq<Emission>, all: seq<Emission>, k: DedupKey)
    requires es <= all && k in Credited(env, es)
    ensures CreditedIn(env, all, k, Credited(env, es)[k])
  {
    assert all == es + all[|es|..];
    CreditedConcat(env, es, all[|es|..]);
  }

  /** Polling one file before the others credits its claims. */
  lemma PolledFirst(env: Env, ids: map<string, Identity>, headed: set<string>, a: seq<Step>, f: string, k: DedupKey)
    returns (b: seq<Step>)
    requires Faithful(env, ids, headed, a) && f in Captured(a) && f in ids
    requires k in Credited(env, OneShot(env, ids[f], Captured(a)[f]).1)
    ensures Faithful(env, ids, headed, b) && Captured(b) == Captured(a)
    ensures CreditedIn(env, AllEmissions(env, b), k, Credited(env, OneShot(env, ids[f], Captured(a)[f]).1)[k])
  {
    CapturedIsWell(env, ids, headed, a);
    var names := NamesFrom(Captured(a), f);
    var files := AuditOf(ids, Captured(a), names);
    AuditedAsCaptured(env, ids, headed, Captured(a), names);
    b := AuditSteps(files);
    AuditIsFaithful(env, ids, headed, files);
    AuditCapturesSame(ids, Captured(a), files);
    FirstAudited(env, files, files[0]);
    PrefixCredits(env, OneShot(env, ids[f], Captured(a)[f]).1, AllEmissions(env, b), k);
  }

  lemma AuditedAsCaptured(env: Env, ids: map<string, Identity>, headed: set<string>, captured: map<string, Bytes>,
                          names: seq<string>)
    requires forall i, j | 0 <= i < j < |names| :: names[i] != names[j]
    requires (forall f :: f in names <==> f in captured) && captured.Keys <= ids.Keys
    requires forall f <- captured :: CapturedWell(env, ids, headed, f, captured[f])
    ensures var files := AuditOf(ids, captured, names);
            AuditsRun(ids, captured, files) && forall f <- files :: ReadyToAudit(env, ids, headed, f)
  {
    var files := AuditOf(ids, captured, names);
    forall f | f in files
      ensures AuditsFile(ids, captured, f)
    {
      var i :| 0 <= i < |files| && files[i] == f;
      assert names[i] in names;
      assert f.content[..f.offset] == f.content;
    }
    forall name | name in captured ensures exists i | 0 <= i < |files| :: files[i].name == name {
      var i :| 0 <= i < |names| && names[i] == name;
      assert files[i].name == name;
    }
  }

  /** However the captured prefixes of a run are polled, the same is credited. */
  ghost predicate CreditedAlways(env: Env, ids: map<string, Identity>, headed: set<string>,
                                 captured: map<string, Bytes>, credits: Credits) {
    forall b: seq<Step> | Faithful(env, ids, headed, b) && Captured(b) == captured ::
      Credited(env, AllEmissions(env, b)) == credits
  }

  lemma AgreeingFilesCreditAlways(env: Env, ids: map<string, Identity>, headed: set<string>, a: seq<Step>)
    requires Faithful(env, ids, headed, a) && Captured(a).Keys <= ids.Keys
    requires FirstClaimsAgree(env, OneShots(env, ids, Captured(a)))
    ensures CreditedAlways(env, ids, headed, Captured(a), Credited(env, AllEmissions(env, a)))
  {
    EmissionsAreReplays(env, ids, headed, a);
    forall b: seq<Step> | Faithful(env, ids, headed, b) && Captured(b) == Captured(a)
      ensures Credited(env, AllEmissions(env, b)) == Credited(env, AllEmissions(env, a))
    {
      EmissionsAreReplays(env, ids, headed, b);
      SameBagSameKeys(AllEmissions(env, a), AllEmissions(env, b));
      AgreeingRunsCreditAlike(env, ids, headed, a, b);
    }
  }

  lemma AlwaysAsInEachFile(env: Env, ids: map<string, Identity>, headed: set<string>, a: seq<Step>, credits: Credits,
                           f: string, k: DedupKey)
    requires Faithful(env, ids, headed, a) && CreditedAlways(env, ids, headed, Captured(a), credits)
    requires Captured(a).Keys <= ids.Keys && f in OneShots(env, ids, Captured(a))
    requires k in Credited(env, OneShots(env, ids, Captured(a))[f])
    ensures CreditedAs(credits, k, Credited(env, OneShots(env, ids, Captured(a))[f])[k])
  {
    var b := PolledFirst(env, ids, headed, a, f, k);
    assert Credited(env, AllEmissions(env, b)) == credits;
  }

  predicate CreditedAs(credits: Credits, k: DedupKey, c: Contribution) {
    k in credits && credits[k] == c
  }

  ghost predicate CreditsOfAll(env: Env, shots: map<string, seq<Emission>>, credits: Credits) {
    forall f, k | f in shots && k in Credited(env, shots[f]) :: CreditedAs(credits, k, Credited(env, shots[f])[k])
  }

  lemma CreditsOfAllAgree(env: Env, shots: map<string, seq<Emission>>, credits: Credits)
    requires CreditsOfAll(env, shots, credits)
    ensures FirstClaimsAgree(env, shots)
  {
    forall f, g, k | f in shots && g in shots && k in Credited(env, shots[f]) && k in Credited(env, shots[g])
      ensures Credited(env, shots[f])[k] == Credited(env, shots[g])[k]
    {
      assert CreditedAs(credits, k, Credited(env, shots[f])[k]) && CreditedAs(credits, k, Credited(env, shots[g])[k]);
    }
  }

  lemma AlwaysMeansAgreeing(env: Env, ids: map<string, Identity>, headed: set<string>, a: seq<Step>, credits: Credits)
    requires Faithful(env, ids, headed, a) && Captured(a).Keys <= ids.Keys
    requires CreditedAlways(env, ids, headed, Captured(a), credits)
    ensures CreditsOfAll(env, OneShots(env, ids, Captured(a)), credits)
  {
    var shots := OneShots(env, ids, Captured(a));
    forall f, k | f in shots && k in Credited(env, shots[f])
      ensures CreditedAs(credits, k, Credited(env, shots[f])[k])
    {
      AlwaysAsInEachFile(env, ids, headed, a, credits, f, k);
    }
  }

  /** What is credited is the same however the files are polled if and only if the first claims of different
      files under one key agree. */
  lemma CreditsDoNotDependOnPollingIff(env: Env, ids: map<string, Identity>, headed: set<string>, a: seq<Step>)
    requires Faithful(env, ids, headed, a)
    ensures Captured(a).Keys <= ids.Keys
    ensures CreditedAlways(env, ids, headed, Captured(a), Credited(env, AllEmissions(env, a)))
       <==> FirstClaimsAgree(env, OneShots(env, ids, Captured(a)))
  {
    CheckpointIsReplay(env, ids, headed, a);
    var agree := FirstClaimsAgree(env, OneShots(env, ids, Captured(a)));
    var always := CreditedAlways(env, ids, headed, Captured(a), Credited(env, AllEmissions(env, a)));
    if agree {
      AgreeingFilesCreditAlways(env, ids, headed, a);
    } else if always {
      AlwaysMeansAgreeing(env, ids, headed, a, Credited(env, AllEmissions(env, a)));
      CreditsOfAllAgree(env, OneShots(env, ids, Captured(a)), Credited(env, AllEmissions(env, a)));
    }
  }
}
