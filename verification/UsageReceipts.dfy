/** Receipts of isolated CLI runs: strict admission and storage that counts each event once. */
module UsageReceipts {
  import opened Prelude
  import opened Folding

  const MAX_TOKENS: int := 1000000000000
  const EARLIEST: int := 946684800
  const CLOCK_SLACK: int := 300

  /** Whose usage a receipt reports, and whether the model was reported or only requested. */
  datatype Origin = Origin(client: string, model: string, basis: string)

  /** A submitted receipt; `shape` says whether its fields, sizes and identifiers are of the allowed form. */
  datatype Raw = Raw(shape: bool, hash: string, origin: Origin, completed: Option<int>, usage: map<string, int>)

  /** Everything the stored canonical text holds, so that equal receipts have equal texts. */
  datatype Receipt = Receipt(hash: string, origin: Origin, completed: int, usage: map<string, int>) {
    function Tokens(): int
      requires "total_tokens" in usage
    {
      usage["total_tokens"]
    }
  }

  function Required(): set<string> {
    {"input_tokens", "output_tokens", "total_tokens"}
  }

  function Known(): set<string> {
    Required() + {"cached_input_tokens", "cache_write_input_tokens", "reasoning_output_tokens"}
  }

  function Count(usage: map<string, int>, name: string): int {
    if name in usage then usage[name] else 0
  }

  predicate Admissible(raw: Raw, now: int) {
    && raw.shape
    && raw.completed.Some? && EARLIEST <= raw.completed.value <= now + CLOCK_SLACK
    && Required() <= raw.usage.Keys <= Known()
    && (forall k :: k in raw.usage ==> 0 <= raw.usage[k] <= MAX_TOKENS)
    && raw.usage["total_tokens"] == raw.usage["input_tokens"] + raw.usage["output_tokens"]
    && Count(raw.usage, "reasoning_output_tokens") <= raw.usage["output_tokens"]
    && Count(raw.usage, "cached_input_tokens") + Count(raw.usage, "cache_write_input_tokens")
       <= raw.usage["input_tokens"]
  }

  function Admitted(raw: Raw): Receipt
    requires raw.completed.Some?
  {
    Receipt(raw.hash, raw.origin, raw.completed.value, raw.usage)
  }

  datatype Outcome = Recorded(tokens: int) | Duplicate(sameTokens: int) | Refused

  /** The rows by event hash. */
  type Ledger = l: map<string, Receipt> | forall h :: h in l ==> l[h].hash == h && "total_tokens" in l[h].usage
    witness map[]

  function Recording(ledger: Ledger, raw: Raw, now: int): (r: (Ledger, Outcome)) {
    if !Admissible(raw, now) then (ledger, Refused)
    else if raw.hash in ledger then
      (ledger, if ledger[raw.hash] == Admitted(raw) then Duplicate(Admitted(raw).Tokens()) else Refused)
    else (ledger[raw.hash := Admitted(raw)], Recorded(Admitted(raw).Tokens()))
  }

  function AddTokens(): (int, Receipt) -> int {
    (sum: int, r: Receipt) => sum + if "total_tokens" in r.usage then r.usage["total_tokens"] else 0
  }

  ghost function TotalTokens(ledger: Ledger): int {
    FoldMap<string, Receipt, int>(AddTokens(), ledger, 0)
  }

  /** A receipt adds its tokens exactly when its hash is new; nothing recorded ever changes. */
  lemma RecordCountsOnce(ledger: Ledger, raw: Raw, now: int)
    ensures var (after, outcome) := Recording(ledger, raw, now);
            && TotalTokens(after) == TotalTokens(ledger) + (if outcome.Recorded? then outcome.tokens else 0)
            && (forall h :: h in ledger ==> h in after && after[h] == ledger[h])
            && (outcome.Recorded? <==> after != ledger)
            && (outcome != Refused ==> raw.hash in after && after[raw.hash] == Admitted(raw))
  {
    var (after, outcome) := Recording(ledger, raw, now);
    if outcome.Recorded? {
      FoldMapInsert<string, Receipt, int>(AddTokens(), ledger, raw.hash, Admitted(raw), 0);
    }
  }

  /** A count is given, or may be missing. */
  predicate CountGiven(usage: map<string, int>, name: string, least: int, most: int) {
    name in usage && least <= usage[name] <= most
  }

  /** What a receipt has to be: of the allowed form, completed after the year 2000 and no more than five minutes
      ahead, with input and output that add up to its total, and parts that are parts of them. */
  predicate Fair(raw: Raw, now: int) {
    var most, u := 1000000000000, raw.usage;
    && raw.shape && raw.completed.Some? && raw.completed.value >= 946684800 && raw.completed.value - 300 <= now
    && CountGiven(u, "input_tokens", 0, most) && CountGiven(u, "output_tokens", 0, most)
    && CountGiven(u, "total_tokens", 0, most) && u["input_tokens"] + u["output_tokens"] == u["total_tokens"]
    && ("reasoning_output_tokens" in u ==> CountGiven(u, "reasoning_output_tokens", 0, u["output_tokens"]))
    && ("cached_input_tokens" in u ==> CountGiven(u, "cached_input_tokens", 0, u["input_tokens"]))
    && ("cache_write_input_tokens" in u ==> CountGiven(u, "cache_write_input_tokens", 0, u["input_tokens"]))
    && ("cached_input_tokens" in u && "cache_write_input_tokens" in u ==>
          u["cached_input_tokens"] + u["cache_write_input_tokens"] <= u["input_tokens"])
    && forall k :: k in u ==> k in {"input_tokens", "output_tokens", "total_tokens", "reasoning_output_tokens",
                                    "cached_input_tokens", "cache_write_input_tokens"}
  }

  lemma FairIsAdmissible(raw: Raw, now: int)
    ensures Fair(raw, now) <==> Admissible(raw, now)
  {
    if Fair(raw, now) {
      assert Required() <= raw.usage.Keys && raw.usage.Keys <= Known();
    }
    if Admissible(raw, now) {
      assert forall k :: k in raw.usage ==> k in Known();
      assert "input_tokens" in raw.usage && "output_tokens" in raw.usage && "total_tokens" in raw.usage by {
        assert Required() <= raw.usage.Keys;
        assert "input_tokens" in Required() && "output_tokens" in Required() && "total_tokens" in Required();
      }
    }
  }

  /** A fair receipt under a new hash is recorded as submitted, with its total; under a known hash it is a duplicate
      if it is what is stored, and everything else is refused without a change. */
  lemma FairReceiptsAreRecorded(ledger: Ledger, raw: Raw, now: int)
    ensures var (after, outcome) := Recording(ledger, raw, now);
            if Fair(raw, now) && raw.hash !in ledger then
              && outcome == Recorded(raw.usage["total_tokens"])
              && after == ledger[raw.hash := Receipt(raw.hash, raw.origin, raw.completed.value, raw.usage)]
            else if Fair(raw, now)
                    && ledger[raw.hash] == Receipt(raw.hash, raw.origin, raw.completed.value, raw.usage) then
              outcome == Duplicate(raw.usage["total_tokens"]) && after == ledger
            else outcome == Refused && after == ledger
  {
    FairIsAdmissible(raw, now);
  }

  /** Submitting again, at any time at which it is still admissible, changes nothing and is no refusal. */
  lemma RecordIsIdempotent(ledger: Ledger, raw: Raw, now: int, later: int)
    requires Recording(ledger, raw, now).1 != Refused && now <= later
    ensures Recording(Recording(ledger, raw, now).0, raw, later)
         == (Recording(ledger, raw, now).0, Duplicate(Admitted(raw).Tokens()))
  {
  }

  /** A hash used again for anything else -- other counts, another time, client, model or basis -- is refused and
      changes nothing. */
  lemma ConflictingReuseIsRefused(ledger: Ledger, raw: Raw, other: Raw, now: int, later: int)
    requires Recording(ledger, raw, now).1 != Refused && other.hash == raw.hash
    requires other.completed.Some? ==> Admitted(other) != Admitted(raw)
    ensures Recording(Recording(ledger, raw, now).0, other, later) == (Recording(ledger, raw, now).0, Refused)
  {
  }

  class UsageReceiptStore {
    var rows: Ledger

    constructor ()
      ensures rows == map[]
    {
      rows := map[];
    }

    method Record(raw: Raw, now: int) returns (outcome: Outcome)
      modifies this
      ensures rows == Recording(old(rows), raw, now).0
      ensures outcome == Recording(old(rows), raw, now).1
      ensures TotalTokens(rows) == TotalTokens(old(rows)) + if outcome.Recorded? then outcome.tokens else 0
    {
      RecordCountsOnce(rows, raw, now);
      if !Admissible(raw, now) {
        return Refused;
      }
      var receipt := Admitted(raw);
      if receipt.hash in rows {
        return if rows[receipt.hash] == receipt then Duplicate(receipt.Tokens()) else Refused;
      }
      rows := rows[receipt.hash := receipt];
      return Recorded(receipt.Tokens());
    }
  }
}
