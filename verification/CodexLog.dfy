/** A rollout file as bytes, and replaying it line by line in one go. */
module CodexLog {
  import opened Prelude
  import opened Folding
  import opened CodexRecords
  import opened CodexParser

  type Bytes = seq<bv8>

  const NEWLINE: bv8 := 10
  const MAX_LINE_BYTES: nat := 512 * 1024

  /** What this model does not look inside: JSON decoding of a line, and the local calendar. */
  datatype Env = Env(decode: Bytes -> Option<Record>, dayOf: Epoch -> Day)

  /** Length of the first line including its newline, or of everything if there is none. */
  function LineEnd(bs: Bytes): (n: nat)
    ensures n <= |bs|
    ensures bs != [] ==> n > 0
    ensures forall i :: 0 <= i < n - 1 ==> bs[i] != NEWLINE
    ensures n < |bs| ==> bs[n - 1] == NEWLINE
  {
    if bs == [] then 0 else if bs[0] == NEWLINE then 1 else 1 + LineEnd(bs[1..])
  }

  predicate Ended(bs: Bytes) {
    bs == [] || bs[|bs| - 1] == NEWLINE
  }

  /** One complete line: oversized and undecodable lines are skipped. */
  function ReplayLine(env: Env, line: Bytes, s: ParseState): (ParseState, seq<Emission>) {
    var record := if |line| > MAX_LINE_BYTES then None else env.decode(line);
    if record.None? then (s, []) else
    var (s', e) := Consume(s, record.value);
    (s', [e])
  }

  /** A line of more than half a mebibyte or one that does not decode changes nothing; any other is one record. */
  lemma LineIsOneRecord(env: Env, line: Bytes, s: ParseState)
    ensures ReplayLine(env, line, s)
         == if |line| > 524288 || env.decode(line).None? then (s, [])
            else (Consume(s, env.decode(line).value).0, [Consume(s, env.decode(line).value).1])
  {
  }

  /** The lines of some bytes; the last one may be unfinished. */
  function Lines(bs: Bytes): seq<Bytes> {
    if bs == [] then [] else [bs[..LineEnd(bs)]] + Lines(bs[LineEnd(bs)..])
  }

  /** The step of the replay, as one function value. */
  function LineStep(env: Env): (ParseState, Bytes) -> (ParseState, seq<Emission>) {
    (s, line) => ReplayLine(env, line, s)
  }

  /** The reference: every line in order, nothing stored in between. */
  function Replay(env: Env, bs: Bytes, s: ParseState): (ParseState, seq<Emission>) {
    Fold(LineStep(env), Lines(bs), s)
  }

  lemma LineEndOfPrefix(a: Bytes, b: Bytes)
    requires a != [] && Ended(a)
    ensures LineEnd(a + b) == LineEnd(a)
  {
    if a[0] != NEWLINE {
      assert (a + b)[1..] == a[1..] + b;
      LineEndOfPrefix(a[1..], b);
    }
  }

  lemma {:induction false} LinesConcat(a: Bytes, b: Bytes)
    requires Ended(a)
    ensures Lines(a + b) == Lines(a) + Lines(b)
    decreases |a|
  {
    if a == [] {
      assert a + b == b;
    } else {
      var n := LineEnd(a);
      LineEndOfPrefix(a, b);
      assert (a + b)[..n] == a[..n] && (a + b)[n..] == a[n..] + b;
      LinesConcat(a[n..], b);
    }
  }

  /** Replaying a prefix of whole lines and then the rest is replaying everything. */
  lemma ReplayConcat(env: Env, a: Bytes, b: Bytes, s: ParseState)
    requires Ended(a)
    ensures var whole, first := Replay(env, a + b, s), Replay(env, a, s);
            var rest := Replay(env, b, first.0);
            whole.0 == rest.0 && whole.1 == first.1 + rest.1
  {
    LinesConcat(a, b);
    FoldConcat(LineStep(env), Lines(a), Lines(b), s);
  }

  lemma LinesOfOne(line: Bytes)
    requires line != [] && LineEnd(line) == |line|
    ensures Lines(line) == [line]
  {
    assert line[..|line|] == line && line[|line|..] == [];
  }

  lemma ReplayOneLine(env: Env, line: Bytes, s: ParseState)
    requires line != [] && LineEnd(line) == |line|
    ensures Replay(env, line, s).0 == ReplayLine(env, line, s).0
    ensures Replay(env, line, s).1 == ReplayLine(env, line, s).1
  {
    LinesOfOne(line);
    FoldOne(LineStep(env), line, s);
  }

  // ---- Settling a sequence of emissions ----

  function SettleStep(): (set<DedupKey>, Emission) -> (set<DedupKey>, seq<TokenEvent>) {
    (keys, e) => var (event, keys') := Settle(e, keys); (keys', if event.Some? then [event.value] else [])
  }

  /** The keys and the events after settling emissions in order. */
  function SettleAll(es: seq<Emission>, keys: set<DedupKey>): (set<DedupKey>, seq<TokenEvent>) {
    Fold(SettleStep(), es, keys)
  }

  function KeysOf(es: seq<Emission>): set<DedupKey> {
    set i | 0 <= i < |es| && es[i].Claim? :: es[i].key
  }

  lemma {:induction false} SettledKeys(es: seq<Emission>, keys: set<DedupKey>)
    ensures SettleAll(es, keys).0 == keys + KeysOf(es)
  {
    if es != [] {
      SettledKeys(es[1..], SettleStep()(keys, es[0]).0);
      assert forall i :: 0 < i < |es| ==> es[i] == es[1..][i - 1];
      assert KeysOf(es) == (if es[0].Claim? then {es[0].key} else {}) + KeysOf(es[1..]) by {
        forall k | k in KeysOf(es) ensures k in (if es[0].Claim? then {es[0].key} else {}) + KeysOf(es[1..]) {
          var i :| 0 <= i < |es| && es[i].Claim? && es[i].key == k;
          if i > 0 {
            assert es[1..][i - 1].key == k;
          }
        }
      }
    }
  }
}
