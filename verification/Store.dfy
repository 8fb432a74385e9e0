/** The database the execution protocol runs on, and its transactions as functions
    from one committed state to the next (infrastructure/repositories/sqlalchemy.py). */
module Store {
  import opened Options
  import opened RiskEngine
  import opened ToolCalls
  import opened AuditTrail
  import JsonValues
  import Rules = RuleEngine

  datatype SessionStatus = Active | Completed | SessionFailed

  datatype Tool = Tool(key: ToolKey, enabled: bool, base: RiskLevel, adapter: string, timeout: Option<nat>)

  /** What tool_results keeps of one result. */
  datatype StoredResult = StoredResult(payload: JsonValues.Json, schemaValid: bool)

  /** byKey is the unique index on idempotency keys; the trail is append-only. */
  datatype Db = Db(
    sessions: map<string, SessionStatus>,
    tools: map<ToolKey, Tool>,
    rules: map<nat, Rules.Rule>,
    calls: map<nat, ToolCall>,
    byKey: map<nat, nat>,
    trail: map<nat, seq<Event>>,
    flags: map<nat, multiset<RiskFlag>>,
    results: map<nat, StoredResult>)

  /** Rows, index and per-call tables agree with each other. */
  ghost predicate Sound(db: Db) {
    && (forall c :: c in db.calls ==>
          && db.calls[c].id == c && Consistent(db.calls[c])
          && db.calls[c].session in db.sessions && db.calls[c].tool in db.tools
          && Known(db.rules, db.calls[c].matched)
          && c in db.trail && c in db.flags
          && db.calls[c].key in db.byKey && db.byKey[db.calls[c].key] == c)
    && (forall k :: k in db.byKey ==> db.byKey[k] in db.calls && db.calls[db.byKey[k]].key == k)
    && (forall c :: c in db.results ==> c in db.calls)
    && (forall t :: t in db.tools ==> db.tools[t].key == t)
    && (forall r :: r in db.rules ==> db.rules[r].id == r)
  }

  ghost predicate Known(rules: map<nat, Rules.Rule>, ids: seq<nat>) {
    forall i :: 0 <= i < |ids| ==> ids[i] in rules
  }

  /** next_sequence_number: one more than the highest number in the session. */
  ghost predicate IsNext(calls: map<nat, ToolCall>, session: string, n: int) {
    && n >= 1
    && (forall c :: c in calls && calls[c].session == session ==> calls[c].sequence < n)
    && (n == 1 || exists c :: c in calls && calls[c].session == session && calls[c].sequence == n - 1)
  }

  /** list_enabled: the enabled rules, each once. */
  ghost predicate IsListing(rules: map<nat, Rules.Rule>, listing: seq<Rules.Rule>) {
    && Rules.DistinctIds(listing)
    && forall r :: r in listing <==> r.id in rules && rules[r.id] == r && r.enabled
  }

  /** _rule_names: the names behind the identifiers, skipping any that are gone. */
  function RuleNames(rules: map<nat, Rules.Rule>, ids: seq<nat>): seq<string> {
    if ids == [] then []
    else
      RuleNames(rules, ids[..|ids| - 1])
      + if ids[|ids| - 1] in rules then [rules[ids[|ids| - 1]].name] else []
  }

  lemma {:induction false} RuleNamesAppend(rules: map<nat, Rules.Rule>, a: seq<nat>, b: seq<nat>)
    ensures RuleNames(rules, a + b) == RuleNames(rules, a) + RuleNames(rules, b)
  {
    if b == [] {
      assert a + b == a;
    } else {
      RuleNamesAppend(rules, a, b[..|b| - 1]);
      assert (a + b)[..|a + b| - 1] == a + b[..|b| - 1];
    }
  }

  /** Rules keep their names, so names once known stay. */
  lemma {:induction false} RuleNamesStay(before: map<nat, Rules.Rule>, after: map<nat, Rules.Rule>, ids: seq<nat>)
    requires Known(before, ids)
    requires forall r :: r in before ==> r in after && after[r].name == before[r].name
    ensures Known(after, ids) && RuleNames(after, ids) == RuleNames(before, ids)
  {
    if ids != [] { RuleNamesStay(before, after, ids[..|ids| - 1]); }
  }

  function Ids(rules: seq<Rules.Rule>): (r: seq<nat>)
    ensures |r| == |rules| && forall i :: 0 <= i < |r| ==> r[i] == rules[i].id
  {
    seq(|rules|, i requires 0 <= i < |rules| => rules[i].id)
  }

  function Names(rules: seq<Rules.Rule>): (r: seq<string>)
    ensures |r| == |rules| && forall i :: 0 <= i < |r| ==> r[i] == rules[i].name
  {
    seq(|rules|, i requires 0 <= i < |rules| => rules[i].name)
  }

  /** The names in an evaluation are those its identifiers resolve to. */
  lemma {:induction false} NamesOfListed(rules: map<nat, Rules.Rule>, reported: seq<Rules.Rule>)
    requires forall r :: r in reported ==> r.id in rules && rules[r.id] == r
    ensures Known(rules, Ids(reported)) && RuleNames(rules, Ids(reported)) == Names(reported)
  {
    if reported != [] {
      var front, last := reported[..|reported| - 1], reported[|reported| - 1];
      assert reported == front + [last];
      NamesOfListed(rules, front);
      assert Ids(reported)[..|reported| - 1] == Ids(front);
      assert Names(reported) == Names(front) + [last.name];
    }
  }

  // ---------------------------------------------------------- transactions

  /** The row of a new call and its first event. */
  function Insert(db: Db, call: ToolCall): Db {
    db.(calls := db.calls[call.id := call], byKey := db.byKey[call.key := call.id],
        trail := db.trail[call.id := [CallReceived]], flags := db.flags[call.id := multiset{}])
  }

  /** What one transaction of the owner writes about its call. */
  datatype Writes = Writes(call: ToolCall, events: seq<Event>, flags: seq<RiskFlag>, result: Option<StoredResult>)

  /** `update` overwrites the row whatever its status. */
  function Write(db: Db, w: Writes): Db
    requires w.call.id in db.trail && w.call.id in db.flags
  {
    var id := w.call.id;
    db.(calls := db.calls[id := w.call], trail := db.trail[id := db.trail[id] + w.events],
        flags := db.flags[id := db.flags[id] + multiset(w.flags)],
        results := if w.result.Some? then db.results[id := w.result.value] else db.results)
  }

  const UNKNOWN_STATE := "execution_state_unknown"

  function Recovered(call: ToolCall, now: int): ToolCall { Rewritten(call, Plain(Failed, now, Some(UNKNOWN_STATE))) }

  /** One recovery batch: every claimed row fails and gets its event. */
  function RecoverAll(db: Db, batch: set<nat>, now: int): Db
    requires forall c :: c in batch ==> c in db.calls && c in db.trail
  {
    db.(calls := map c | c in db.calls :: if c in batch then Recovered(db.calls[c], now) else db.calls[c],
        trail := map c | c in db.trail :: if c in batch then db.trail[c] + [CallRecovered] else db.trail[c])
  }

  /** The rows a recovery run with this cutoff still has to deal with. */
  ghost function Stale(db: Db, cutoff: int): set<nat> {
    set c | c in db.calls && db.calls[c].status == Executing && db.calls[c].updated < cutoff
  }

  // --------------------------------------------- transactions keep soundness

  lemma InsertSound(db: Db, call: ToolCall)
    requires Sound(db) && Consistent(call) && call.id !in db.calls && call.key !in db.byKey
    requires call.session in db.sessions && call.tool in db.tools && Known(db.rules, call.matched)
    ensures Sound(Insert(db, call))
  {
  }

  lemma WriteSound(db: Db, w: Writes)
    requires Sound(db) && w.call.id in db.calls && SameCall(w.call, db.calls[w.call.id]) && Consistent(w.call)
    requires Known(db.rules, w.call.matched)
    ensures Sound(Write(db, w))
  {
  }

  lemma RecoverAllSound(db: Db, batch: set<nat>, now: int)
    requires Sound(db)
    requires forall c :: c in batch ==> c in db.calls && db.calls[c].status == Executing && db.calls[c].updated <= now
    ensures Sound(RecoverAll(db, batch, now))
  {
    var after := RecoverAll(db, batch, now);
    forall c | c in after.calls
      ensures Consistent(after.calls[c]) && SameCall(after.calls[c], db.calls[c])
      ensures after.calls[c].matched == db.calls[c].matched
    {
      if c in batch { TransitionKeeps(db.calls[c], Plain(Failed, now, Some(UNKNOWN_STATE))); }
    }
  }
}
