/** The recent-activity list: the newest row of each conversation, newest first. */
module RecentActivity {
  import opened InsertionOrder
  import opened Sorting
  import opened Text
  import opened Wrappers

  datatype Conversation = Conversation(
    key: string,
    agentKey: string,
    updatedAt: string,
    latestTurnId: Option<string>,
    latestTurnStatus: Option<string>,
    hasActiveTurn: bool)

  datatype Turn = Turn(
    turnId: string,
    attempt: int,
    status: string,
    conversationKey: string,
    createdAt: string,
    startedAt: Option<string>,
    finishedAt: Option<string>)

  /** What the turns store holds, by turn id. */
  datatype Turns = Turns(
    byId: OrderedMap<Turn>,
    agentKeys: map<string, string>,
    conversationKeys: map<string, string>)

  datatype Row = Row(
    id: string,
    turnId: Option<string>,
    turnAttempt: Option<int>,
    agentKey: string,
    conversationKey: string,
    occurredAt: string,
    turnStatus: Option<string>)

  /** How the runtime compares two strings; a total preorder is all that is assumed of it. */
  type Collation = (string, string) -> bool

  function OrElse<T>(first: Option<T>, second: Option<T>): Option<T> {
    if first.Some? then first else second
  }

  function GetOr<T>(value: Option<T>, default: T): T {
    if value.Some? then value.value else default
  }

  function Find<V>(m: map<string, V>, key: string): Option<V> {
    if key in m then Some(m[key]) else None
  }

  function NormalizeOptionalString(value: Option<string>): Option<string> {
    if value.Some? && Trim(value.value) != [] then Some(Trim(value.value)) else None
  }

  function TurnOccurredAt(turn: Turn): string {
    GetOr(OrElse(turn.finishedAt, turn.startedAt), turn.createdAt)
  }

  // ---------- Orders ----------

  predicate Newer(leq: Collation, a: string, b: string) {
    leq(b, a) && !leq(a, b)
  }

  /** Newest first; at the same time, in the order of the second component. */
  predicate NewestFirst(leq: Collation, timeA: string, tieA: string, timeB: string, tieB: string) {
    leq(timeB, timeA) && (leq(timeA, timeB) ==> leq(tieA, tieB))
  }

  function RowOrder(leq: Collation): (Row, Row) -> bool {
    (a: Row, b: Row) => NewestFirst(leq, a.occurredAt, a.id, b.occurredAt, b.id)
  }

  function ConversationOrder(leq: Collation): (Conversation, Conversation) -> bool {
    (a: Conversation, b: Conversation) => NewestFirst(leq, a.updatedAt, a.key, b.updatedAt, b.key)
  }

  function TurnOrder(leq: Collation): (Turn, Turn) -> bool {
    (a: Turn, b: Turn) => NewestFirst(leq, TurnOccurredAt(a), b.turnId, TurnOccurredAt(b), a.turnId)
  }

  /** Rows and conversations come newest first and, at the same time, by id or key; turns newest first and then by
      descending id. */
  lemma OrderMeaning(leq: Collation, a: Row, b: Row, c: Conversation, d: Conversation, t: Turn, u: Turn)
    requires TotalPreorder(leq)
    ensures RowOrder(leq)(a, b) <==>
      Newer(leq, a.occurredAt, b.occurredAt) || (!Newer(leq, b.occurredAt, a.occurredAt) && leq(a.id, b.id))
    ensures ConversationOrder(leq)(c, d) <==>
      Newer(leq, c.updatedAt, d.updatedAt) || (!Newer(leq, d.updatedAt, c.updatedAt) && leq(c.key, d.key))
    ensures TurnOrder(leq)(t, u) <==>
      var at, bt := TurnOccurredAt(t), TurnOccurredAt(u);
      Newer(leq, at, bt) || (!Newer(leq, bt, at) && leq(u.turnId, t.turnId))
  {
    hide TurnOccurredAt;
    assert leq(a.occurredAt, b.occurredAt) || leq(b.occurredAt, a.occurredAt);
    assert leq(c.updatedAt, d.updatedAt) || leq(d.updatedAt, c.updatedAt);
    assert leq(TurnOccurredAt(t), TurnOccurredAt(u)) || leq(TurnOccurredAt(u), TurnOccurredAt(t));
  }

  lemma RowOrderIsTotal(leq: Collation)
    requires TotalPreorder(leq)
    ensures TotalPreorder(RowOrder(leq))
  {
    hide NewestFirst;
    forall a, b, c | RowOrder(leq)(a, b) && RowOrder(leq)(b, c) ensures RowOrder(leq)(a, c) {
      NewestFirstTransitive(leq, a.occurredAt, a.id, b.occurredAt, b.id, c.occurredAt, c.id);
    }
    forall a, b ensures RowOrder(leq)(a, b) || RowOrder(leq)(b, a) {
      NewestFirstTotal(leq, a.occurredAt, a.id, b.occurredAt, b.id);
    }
  }

  lemma NewestFirstTransitive(leq: Collation, ta: string, ia: string, tb: string, ib: string, tc: string, ic: string)
    requires TotalPreorder(leq) && NewestFirst(leq, ta, ia, tb, ib) && NewestFirst(leq, tb, ib, tc, ic)
    ensures NewestFirst(leq, ta, ia, tc, ic)
  {
    assert leq(tc, tb) && leq(tb, ta);
    if leq(ta, tc) {
      assert leq(ta, tb) && leq(tb, tc);
      assert leq(ia, ib) && leq(ib, ic);
    }
  }

  lemma NewestFirstTotal(leq: Collation, ta: string, ia: string, tb: string, ib: string)
    requires TotalPreorder(leq)
    ensures NewestFirst(leq, ta, ia, tb, ib) || NewestFirst(leq, tb, ib, ta, ia)
  {
    assert leq(ta, tb) || leq(tb, ta);
    assert leq(ia, ib) || leq(ib, ia);
  }

  // ---------- The rows ----------

  /** The row of a conversation, if it shows any activity. */
  function ConversationRow(turns: Turns, conversation: Conversation): Option<Row> {
    var turnId := NormalizeOptionalString(conversation.latestTurnId);
    var turn := if turnId.Some? then Lookup(turns.byId, turnId.value) else None;
    var status := if turn.Some? then Some(turn.value.status) else conversation.latestTurnStatus;
    if turnId.None? && status.None? && !conversation.hasActiveTurn then None
    else
      Some(Row(
        GetOr(turnId, "conversation:" + conversation.key),
        turnId,
        if turn.Some? then Some(turn.value.attempt) else None,
        GetOr(NormalizeOptionalString(Some(conversation.agentKey)), "default"),
        conversation.key,
        if turn.Some? then TurnOccurredAt(turn.value) else conversation.updatedAt,
        status))
  }

  function TurnRow(turns: Turns, byKey: map<string, Conversation>, turn: Turn): Row {
    var key := GetOr(OrElse(NormalizeOptionalString(Find(turns.conversationKeys, turn.turnId)),
                            NormalizeOptionalString(Some(turn.conversationKey))), "conversation");
    var ofConversation := if key in byKey then NormalizeOptionalString(Some(byKey[key].agentKey)) else None;
    var agentKey :=
      GetOr(OrElse(NormalizeOptionalString(Find(turns.agentKeys, turn.turnId)), ofConversation), "default");
    Row(turn.turnId, Some(turn.turnId), Some(turn.attempt), agentKey, key, TurnOccurredAt(turn), Some(turn.status))
  }

  // ---------- What the rows say ----------

  predicate IsBlankOption(value: Option<string>) {
    value.None? || Trim(value.value) == ""
  }

  /** The time a turn is listed at: when it finished, or else started, or else was created. */
  predicate OccurredAt(turn: Turn, at: string) {
    || turn.finishedAt == Some(at)
    || (turn.finishedAt.None? && turn.startedAt == Some(at))
    || (turn.finishedAt.None? && turn.startedAt.None? && turn.createdAt == at)
  }

  /** A conversation has a row exactly if it names a latest turn, has a known status or an active turn. The row takes
      attempt, status and time from that turn if the store holds it, and status and time from the conversation if
      not. */
  lemma ConversationRowMeaning(turns: Turns, c: Conversation)
    ensures ConversationRow(turns, c).None? <==>
      IsBlankOption(c.latestTurnId) && c.latestTurnStatus.None? && !c.hasActiveTurn
    ensures ConversationRow(turns, c).Some? ==>
      var row, named := ConversationRow(turns, c).value, !IsBlankOption(c.latestTurnId);
      && row.conversationKey == c.key
      && row.agentKey == (if Trim(c.agentKey) == "" then "default" else Trim(c.agentKey))
      && (if named then row.turnId == Some(Trim(c.latestTurnId.value)) && row.id == Trim(c.latestTurnId.value)
          else row.turnId.None? && row.id == "conversation:" + c.key)
      && (if named && Trim(c.latestTurnId.value) in turns.byId.entries then
            var turn := turns.byId.entries[Trim(c.latestTurnId.value)];
            row.turnAttempt == Some(turn.attempt) && row.turnStatus == Some(turn.status) &&
            OccurredAt(turn, row.occurredAt)
          else row.turnAttempt.None? && row.turnStatus == c.latestTurnStatus && row.occurredAt == c.updatedAt)
  {
    hide Trim;
  }

  /** The row of a turn carries its id, attempt, status and time; its conversation is the one the store knows for it, or
      else its own, and its agent the one the store knows, or else that of the conversation. */
  lemma TurnRowMeaning(turns: Turns, byKey: map<string, Conversation>, turn: Turn)
    ensures var row := TurnRow(turns, byKey, turn);
      var key, agent := Find(turns.conversationKeys, turn.turnId), Find(turns.agentKeys, turn.turnId);
      && row.id == turn.turnId && row.turnId == Some(turn.turnId) && row.turnAttempt == Some(turn.attempt)
      && row.turnStatus == Some(turn.status) && OccurredAt(turn, row.occurredAt)
      && row.conversationKey == (if !IsBlankOption(key) then Trim(key.value)
                                 else if Trim(turn.conversationKey) != "" then Trim(turn.conversationKey)
                                 else "conversation")
      && row.agentKey == (if !IsBlankOption(agent) then Trim(agent.value)
                          else if row.conversationKey in byKey && Trim(byKey[row.conversationKey].agentKey) != ""
                          then Trim(byKey[row.conversationKey].agentKey)
                          else "default")
  {
    hide Trim;
  }

  function ConversationRows(turns: Turns, conversations: seq<Conversation>): (rows: seq<Row>)
    ensures |rows| <= |conversations|
  {
    if conversations == [] then []
    else
      var front := ConversationRows(turns, conversations[..|conversations| - 1]);
      var row := ConversationRow(turns, conversations[|conversations| - 1]);
      if row.Some? then front + [row.value] else front
  }

  function TurnRows(turns: Turns, byKey: map<string, Conversation>, all: seq<Turn>): (rows: seq<Row>)
    ensures |rows| == |all| && forall i :: 0 <= i < |all| ==> rows[i] == TurnRow(turns, byKey, all[i])
  {
    seq(|all|, i requires 0 <= i < |all| => TurnRow(turns, byKey, all[i]))
  }

  /** At most `limit` elements, where a limit is given. */
  function Limited<T>(s: seq<T>, limit: Option<int>): (r: seq<T>)
    ensures r <= s && (limit.None? ==> r == s)
    ensures limit.Some? ==> |r| <= limit.value || r == []
    ensures limit.Some? && |r| < |s| ==> |r| == limit.value || limit.value < 0
  {
    if limit.None? || |s| <= limit.value then s
    else if limit.value < 0 then []
    else s[..limit.value]
  }

  /** The conversations by key; of several with one key, the last. */
  function ByKey(conversations: seq<Conversation>): map<string, Conversation> {
    if conversations == [] then map[]
    else
      var last := conversations[|conversations| - 1];
      ByKey(conversations[..|conversations| - 1])[last.key := last]
  }

  /** `c` is the last of the conversations with this key. */
  predicate IsLastOf(conversations: seq<Conversation>, key: string, c: Conversation) {
    exists i :: 0 <= i < |conversations| && conversations[i] == c && c.key == key
      && forall j :: i < j < |conversations| ==> conversations[j].key != key
  }

  lemma LastOfMore(conversations: seq<Conversation>, n: nat, byKey: map<string, Conversation>)
    requires n < |conversations|
    requires forall key :: key in byKey ==> IsLastOf(conversations[..n], key, byKey[key])
    ensures var more := byKey[conversations[n].key := conversations[n]];
      forall key :: key in more ==> IsLastOf(conversations[..n + 1], key, more[key])
  {
    var most, last := conversations[..n + 1], conversations[n];
    forall key | key in byKey && key != last.key ensures IsLastOf(most, key, byKey[key]) {
      var i :| 0 <= i < n && conversations[..n][i] == byKey[key] && byKey[key].key == key
        && forall j :: i < j < n ==> conversations[..n][j].key != key;
      assert most[i] == byKey[key];
      forall j | i < j < n + 1 ensures most[j].key != key {
        assert j < n ==> most[j] == conversations[..n][j];
      }
    }
    assert most[n] == last;
  }

  function Values<V>(m: OrderedMap<V>): (r: seq<V>)
    ensures |r| == |m.keys| && forall i :: 0 <= i < |r| ==> m.keys[i] in m.entries && r[i] == m.entries[m.keys[i]]
  {
    assert forall i :: 0 <= i < |m.keys| ==> m.keys[i] in m.keys;
    seq(|m.keys|, i requires 0 <= i < |m.keys| => m.entries[m.keys[i]])
  }

  method BuildTranscriptConversationsByKey(conversations: seq<Conversation>) returns (byKey: map<string, Conversation>)
    ensures byKey == ByKey(conversations)
    ensures forall key :: key in byKey <==> exists i :: 0 <= i < |conversations| && conversations[i].key == key
    ensures forall key :: key in byKey ==> IsLastOf(conversations, key, byKey[key])
  {
    byKey := map[];
    for i := 0 to |conversations|
      invariant byKey == ByKey(conversations[..i])
      invariant forall key :: key in byKey <==> exists j :: 0 <= j < i && conversations[j].key == key
      invariant forall key :: key in byKey ==> IsLastOf(conversations[..i], key, byKey[key])
    {
      LastOfMore(conversations, i, byKey);
      assert conversations[..i + 1][..i] == conversations[..i];
      byKey := byKey[conversations[i].key := conversations[i]];
    }
    assert conversations[..|conversations|] == conversations;
  }

  lemma RowsGrow(turns: Turns, conversations: seq<Conversation>, i: nat)
    requires i < |conversations|
    ensures var row := ConversationRow(turns, conversations[i]);
      ConversationRows(turns, conversations[..i + 1]) ==
        ConversationRows(turns, conversations[..i]) + if row.Some? then [row.value] else []
  {
    hide ConversationRow;
    assert conversations[..i + 1][..i] == conversations[..i];
  }

  lemma {:induction false} RowsOfPrefix(turns: Turns, conversations: seq<Conversation>, i: nat)
    requires i <= |conversations|
    ensures ConversationRows(turns, conversations[..i]) <= ConversationRows(turns, conversations)
  {
    hide ConversationRow;
    if i < |conversations| {
      var front := conversations[..|conversations| - 1];
      assert front[..i] == conversations[..i];
      RowsOfPrefix(turns, front, i);
    } else {
      assert conversations[..i] == conversations;
    }
  }

  method BuildConversationActivityRows(leq: Collation, conversations: seq<Conversation>, turns: Turns,
                                       limit: Option<int>)
      returns (rows: seq<Row>)
    ensures rows == Limited(ConversationRows(turns, Sort(ConversationOrder(leq), conversations)), limit)
  {
    hide ConversationRow, ConversationRows;
    var sorted := Sort(ConversationOrder(leq), conversations);
    rows := [];
    assert ConversationRows(turns, sorted[..0]) == [];
    for i := 0 to |sorted|
      invariant rows == ConversationRows(turns, sorted[..i])
      invariant limit.Some? && limit.value >= 0 ==> |rows| <= limit.value
      invariant limit.Some? && limit.value < 0 ==> rows == []
    {
      RowsOfPrefix(turns, sorted, i);
      if limit.Some? && |rows| >= limit.value {
        return;
      }
      RowsGrow(turns, sorted, i);
      var row := ConversationRow(turns, sorted[i]);
      if row.Some? {
        rows := rows + [row.value];
      }
    }
    assert sorted[..|sorted|] == sorted;
  }

  method BuildTurnFallbackRows(leq: Collation, turns: Turns, byKey: map<string, Conversation>, limit: Option<int>)
      returns (rows: seq<Row>)
    ensures rows == Limited(TurnRows(turns, byKey, Sort(TurnOrder(leq), Values(turns.byId))), limit)
  {
    hide TurnRow;
    var sorted := Sort(TurnOrder(leq), Values(turns.byId));
    rows := [];
    for i := 0 to |sorted|
      invariant |rows| == i && rows == TurnRows(turns, byKey, sorted)[..i]
      invariant limit.Some? && limit.value >= 0 ==> |rows| <= limit.value
      invariant limit.Some? && limit.value < 0 ==> rows == []
    {
      if limit.Some? && |rows| >= limit.value {
        return;
      }
      rows := rows + [TurnRow(turns, byKey, sorted[i])];
    }
  }

  // ---------- One row per conversation ----------

  function Conversations(rows: seq<Row>): set<string> {
    set row | row in rows :: row.conversationKey
  }

  /** The first row of each conversation, in order. */
  function FirstOfEach(rows: seq<Row>): (r: seq<Row>)
    ensures |r| <= |rows|
  {
    if rows == [] then []
    else
      var front, last := FirstOfEach(rows[..|rows| - 1]), rows[|rows| - 1];
      if last.conversationKey in Conversations(front) then front else front + [last]
  }

  function Bound(limit: int): nat {
    if limit < 1 then 1 else limit
  }

  function Selected(leq: Collation, rows: seq<Row>, limit: int): seq<Row> {
    Limited(FirstOfEach(Sort(RowOrder(leq), rows)), Some(Bound(limit)))
  }

  lemma FirstOfEachStep(rows: seq<Row>, i: nat)
    requires i < |rows|
    ensures FirstOfEach(rows[..i + 1]) ==
      (var front := FirstOfEach(rows[..i]);
       if rows[i].conversationKey in Conversations(front) then front else front + [rows[i]])
  {
    hide Conversations;
    assert rows[..i + 1][..i] == rows[..i];
  }

  lemma {:induction false} FirstOfPrefix(rows: seq<Row>, i: nat)
    requires i <= |rows|
    ensures FirstOfEach(rows[..i]) <= FirstOfEach(rows)
  {
    hide Conversations;
    if i < |rows| {
      var front := rows[..|rows| - 1];
      assert front[..i] == rows[..i];
      FirstOfPrefix(front, i);
    } else {
      assert rows[..i] == rows;
    }
  }

  /** Keeps the first row seen of each conversation and stops once it has enough. */
  method SelectNewestRowsByConversation(leq: Collation, rows: seq<Row>, limit: int) returns (r: seq<Row>)
    ensures r == Selected(leq, rows, limit)
  {
    hide FirstOfEach, Put, Conversations, RowOrder;
    var sorted := Sort(RowOrder(leq), rows);
    var newest: OrderedMap<Row> := Empty();
    assert FirstOfEach(sorted[..0]) == [];
    for i := 0 to |sorted|
      invariant Values(newest) == FirstOfEach(sorted[..i])
      invariant KeyedByConversation(newest)
      invariant |newest.keys| < Bound(limit)
    {
      var row := sorted[i];
      FirstOfEachStep(sorted, i);
      KeysAreConversations(newest);
      if row.conversationKey in newest.entries {
        continue;
      }
      PutNewConversation(newest, row);
      newest := Put(newest, row.conversationKey, row);
      if |newest.keys| >= limit {
        FirstOfPrefix(sorted, i + 1);
        r := Values(newest);
        return;
      }
    }
    assert sorted[..|sorted|] == sorted;
    r := Values(newest);
  }

  predicate KeyedByConversation(m: OrderedMap<Row>) {
    forall k :: k in m.entries ==> m.entries[k].conversationKey == k
  }

  lemma PutNewConversation(m: OrderedMap<Row>, row: Row)
    requires KeyedByConversation(m) && row.conversationKey !in m.entries
    ensures var more := Put(m, row.conversationKey, row);
      KeyedByConversation(more) && Values(more) == Values(m) + [row]
  {
  }

  lemma KeysAreConversations(m: OrderedMap<Row>)
    requires KeyedByConversation(m)
    ensures Conversations(Values(m)) == m.entries.Keys
  {
    var r := Values(m);
    forall k | k in m.entries ensures k in Conversations(r) {
      assert k in m.keys;
      var i :| 0 <= i < |m.keys| && m.keys[i] == k;
      assert r[i] in r;
    }
  }

  method BuildRecentActivityState(leq: Collation, turns: Turns, conversations: seq<Conversation>, limit: Option<int>)
      returns (rows: seq<Row>)
    ensures rows == Selected(leq, ActivityRows(leq, turns, conversations), GetOr(limit, 8))
  {
    var byKey := BuildTranscriptConversationsByKey(conversations);
    var conversationRows := BuildConversationActivityRows(leq, conversations, turns, None);
    var turnRows := BuildTurnFallbackRows(leq, turns, byKey, None);
    rows := SelectNewestRowsByConversation(leq, conversationRows + turnRows, GetOr(limit, 8));
  }

  /** The merged rows of all conversations and all turns. */
  function ActivityRows(leq: Collation, turns: Turns, conversations: seq<Conversation>): seq<Row> {
    ConversationRows(turns, Sort(ConversationOrder(leq), conversations))
      + TurnRows(turns, ByKey(conversations), Sort(TurnOrder(leq), Values(turns.byId)))
  }

  // ---------- What is selected ----------

  ghost predicate Represents(order: (Row, Row) -> bool, r: seq<Row>, row: Row) {
    exists i :: 0 <= i < |r| && r[i].conversationKey == row.conversationKey && order(r[i], row)
  }

  predicate OnePerConversation(r: seq<Row>) {
    forall i, j :: 0 <= i < j < |r| ==> r[i].conversationKey != r[j].conversationKey
  }

  lemma {:induction false} FirstOfEachLaw(order: (Row, Row) -> bool, rows: seq<Row>)
    requires SortedBy(order, rows)
    ensures var r := FirstOfEach(rows);
      && (forall row :: row in r ==> row in rows)
      && OnePerConversation(r)
      && SortedBy(order, r)
      && Conversations(r) == Conversations(rows)
      && |Conversations(rows)| == |r|
  {
    hide Conversations, OnePerConversation, SortedBy;
    if rows == [] {
      NoConversations(order);
    } else {
      var front, last := rows[..|rows| - 1], rows[|rows| - 1];
      assert rows == front + [last];
      SortedFront(order, front, last);
      FirstOfEachLaw(order, front);
      ConversationsAppend(front, last);
      if last.conversationKey !in Conversations(FirstOfEach(front)) {
        ConversationsAppend(FirstOfEach(front), last);
        AppendNewConversation(order, FirstOfEach(front), last);
      }
    }
  }

  lemma NoConversations(order: (Row, Row) -> bool)
    ensures Conversations([]) == {} && OnePerConversation([]) && SortedBy(order, [])
  {
  }

  lemma SortedFront(order: (Row, Row) -> bool, front: seq<Row>, last: Row)
    requires SortedBy(order, front + [last])
    ensures SortedBy(order, front)
    ensures forall row :: row in front ==> order(row, last)
  {
    var rows := front + [last];
    forall i, j | 0 <= i < j < |front| ensures order(front[i], front[j]) {
      assert rows[i] == front[i] && rows[j] == front[j];
    }
    forall row | row in front ensures order(row, last) {
      var i :| 0 <= i < |front| && front[i] == row;
      assert rows[i] == row && rows[|front|] == last;
    }
  }

  lemma AppendNewConversation(order: (Row, Row) -> bool, past: seq<Row>, last: Row)
    requires SortedBy(order, past) && OnePerConversation(past)
    requires last.conversationKey !in Conversations(past)
    requires forall row :: row in past ==> order(row, last)
    ensures SortedBy(order, past + [last]) && OnePerConversation(past + [last])
  {
    forall row | row in past ensures row.conversationKey != last.conversationKey {
      assert row.conversationKey in Conversations(past);
    }
  }

  lemma ConversationsAppend(rows: seq<Row>, row: Row)
    ensures Conversations(rows + [row]) == Conversations(rows) + {row.conversationKey}
  {
  }

  /** The row kept of a conversation comes before all its other rows. */
  lemma {:induction false} FirstOfEachRepresents(order: (Row, Row) -> bool, rows: seq<Row>, row: Row)
    requires TotalPreorder(order) && SortedBy(order, rows) && row in rows
    ensures Represents(order, FirstOfEach(rows), row)
  {
    hide SortedBy, OnePerConversation, Conversations;
    var front, last := rows[..|rows| - 1], rows[|rows| - 1];
    assert rows == front + [last];
    SortedFront(order, front, last);
    var past := FirstOfEach(front);
    if row in front {
      FirstOfEachRepresents(order, front, row);
      StillRepresented(order, past, last, row);
    } else if last.conversationKey in Conversations(past) {
      FirstOfEachLaw(order, front);
      RepresentedBy(order, past, row);
    } else {
      assert (past + [last])[|past|] == row;
    }
  }

  lemma StillRepresented(order: (Row, Row) -> bool, past: seq<Row>, last: Row, row: Row)
    requires Represents(order, past, row)
    ensures Represents(order, past + [last], row)
  {
    var i :| 0 <= i < |past| && past[i].conversationKey == row.conversationKey && order(past[i], row);
    assert (past + [last])[i] == past[i];
  }

  lemma RepresentedBy(order: (Row, Row) -> bool, past: seq<Row>, row: Row)
    requires row.conversationKey in Conversations(past)
    requires forall first :: first in past ==> order(first, row)
    ensures Represents(order, past, row)
  {
    var first :| first in past && first.conversationKey == row.conversationKey;
    var i :| 0 <= i < |past| && past[i] == first;
  }

  /** The selected rows: as many as there are conversations, up to the limit (a limit below one counts as one);
      in order; one per conversation; each one of the newest of its conversation; and no row of a conversation
      left out comes before a selected row. */
  lemma SelectionLaw(leq: Collation, rows: seq<Row>, limit: int)
    requires TotalPreorder(leq)
    ensures var r, order, n := Selected(leq, rows, limit), RowOrder(leq), |Conversations(rows)|;
      && |r| == (if n <= limit || n <= 1 then n else if limit < 1 then 1 else limit)
      && SortedBy(order, r)
      && OnePerConversation(r)
      && (forall row :: row in r ==> row in rows)
      && (forall i, row :: 0 <= i < |r| && row in rows && row.conversationKey == r[i].conversationKey ==>
        order(r[i], row))
      && (forall i, row :: 0 <= i < |r| && row in rows && row.conversationKey !in Conversations(r) ==> order(r[i], row))
  {
    hide RowOrder, FirstOfEach, SortedBy, OnePerConversation, Conversations;
    var r, order := Selected(leq, rows, limit), RowOrder(leq);
    var sorted := Sort(order, rows);
    var all := FirstOfEach(sorted);
    RowOrderIsTotal(leq);
    SortLaw(order, rows);
    FirstOfEachLaw(order, sorted);
    SameConversations(sorted, rows);
    PrefixKeepsOrder(order, all, |r|);
    assert all[..|r|] == r;
    forall i, row | 0 <= i < |r| && row in rows &&
      (row.conversationKey == r[i].conversationKey || row.conversationKey !in Conversations(r))
      ensures order(r[i], row)
    {
      FirstOfEachRepresents(order, sorted, row);
      PrefixPrecedes(order, all, |r|, i, row);
    }
  }

  lemma SameConversations(a: seq<Row>, b: seq<Row>)
    requires forall row :: row in a <==> row in b
    ensures Conversations(a) == Conversations(b)
  {
  }

  lemma PrefixKeepsOrder(order: (Row, Row) -> bool, all: seq<Row>, n: nat)
    requires n <= |all| && SortedBy(order, all) && OnePerConversation(all)
    ensures SortedBy(order, all[..n]) && OnePerConversation(all[..n])
  {
  }

  lemma PrefixPrecedes(order: (Row, Row) -> bool, all: seq<Row>, n: nat, i: nat, row: Row)
    requires TotalPreorder(order) && SortedBy(order, all) && OnePerConversation(all)
    requires i < n <= |all| && Represents(order, all, row)
    requires row.conversationKey == all[i].conversationKey || row.conversationKey !in Conversations(all[..n])
    ensures order(all[i], row)
  {
    var k :| 0 <= k < |all| && all[k].conversationKey == row.conversationKey && order(all[k], row);
    if k < n {
      assert all[..n][k] in all[..n];
      assert all[k].conversationKey in Conversations(all[..n]);
      assert k == i;
    }
  }

  /** While the list is not full, every turn's conversation is shown, with activity at least as recent as that turn. */
  lemma EveryTurnIsRepresented(leq: Collation, turns: Turns, conversations: seq<Conversation>, limit: int, turn: Turn)
    requires TotalPreorder(leq)
    requires turn in Values(turns.byId)
    requires |Selected(leq, ActivityRows(leq, turns, conversations), limit)| < limit
    ensures var r,
      row := Selected(leq, ActivityRows(leq, turns, conversations), limit), TurnRow(turns, ByKey(conversations), turn);
      exists i :: 0 <= i < |r| && r[i].conversationKey == row.conversationKey &&
        !Newer(leq, TurnOccurredAt(turn), r[i].occurredAt)
  {
    hide FirstOfEach, TurnRow, ConversationRows, ByKey, TurnOccurredAt;
    var rows := ActivityRows(leq, turns, conversations);
    var all, byKey := Sort(TurnOrder(leq), Values(turns.byId)), ByKey(conversations);
    TurnOrderIsTotal(leq);
    SortLaw(TurnOrder(leq), Values(turns.byId));
    var i :| 0 <= i < |all| && all[i] == turn;
    var row := TurnRow(turns, byKey, turn);
    assert TurnRows(turns, byKey, all)[i] == row && row in rows;
    TurnRowTime(turns, byKey, turn);
    var order, sorted := RowOrder(leq), Sort(RowOrder(leq), rows);
    RowOrderIsTotal(leq);
    SortLaw(order, rows);
    FirstOfEachRepresents(order, sorted, row);
  }

  lemma TurnOrderIsTotal(leq: Collation)
    requires TotalPreorder(leq)
    ensures TotalPreorder(TurnOrder(leq))
  {
    hide TurnOccurredAt, NewestFirst;
    forall a, b, c | TurnOrder(leq)(a, b) && TurnOrder(leq)(b, c) ensures TurnOrder(leq)(a, c) {
      TurnOrderTransitive(leq, a, b, c);
    }
    forall a, b ensures TurnOrder(leq)(a, b) || TurnOrder(leq)(b, a) {
      TurnOrderTotal(leq, a, b);
    }
  }

  lemma TurnOrderTransitive(leq: Collation, a: Turn, b: Turn, c: Turn)
    requires TotalPreorder(leq) && TurnOrder(leq)(a, b) && TurnOrder(leq)(b, c)
    ensures TurnOrder(leq)(a, c)
  {
    hide TurnOccurredAt;
    var ta, tb, tc := TurnOccurredAt(a), TurnOccurredAt(b), TurnOccurredAt(c);
    assert leq(tc, tb) && leq(tb, ta);
    if leq(ta, tc) {
      assert leq(ta, tb) && leq(tb, tc);
      assert leq(c.turnId, b.turnId) && leq(b.turnId, a.turnId);
    }
  }

  lemma TurnOrderTotal(leq: Collation, a: Turn, b: Turn)
    requires TotalPreorder(leq)
    ensures TurnOrder(leq)(a, b) || TurnOrder(leq)(b, a)
  {
    hide TurnOccurredAt;
    assert leq(TurnOccurredAt(a), TurnOccurredAt(b)) || leq(TurnOccurredAt(b), TurnOccurredAt(a));
    assert leq(a.turnId, b.turnId) || leq(b.turnId, a.turnId);
  }

  lemma TurnRowTime(turns: Turns, byKey: map<string, Conversation>, turn: Turn)
    ensures TurnRow(turns, byKey, turn).occurredAt == TurnOccurredAt(turn)
  {
  }

  lemma {:induction false} RowIsListed(turns: Turns, conversations: seq<Conversation>, c: Conversation)
    requires c in conversations && ConversationRow(turns, c).Some?
    ensures ConversationRow(turns, c).value in ConversationRows(turns, conversations)
  {
    hide ConversationRow;
    var front, last := conversations[..|conversations| - 1], conversations[|conversations| - 1];
    if c != last {
      assert conversations == front + [last];
      RowIsListed(turns, front, c);
    }
  }

  /** And so is every conversation that names a turn, has a status or an active turn, with activity at least as recent
      as its own. */
  lemma EveryActiveConversationIsRepresented(leq: Collation, turns: Turns, conversations: seq<Conversation>, limit: int,
                                             c: Conversation)
    requires TotalPreorder(leq) && c in conversations
    requires !IsBlankOption(c.latestTurnId) || c.latestTurnStatus.Some? || c.hasActiveTurn
    requires |Selected(leq, ActivityRows(leq, turns, conversations), limit)| < limit
    ensures var r := Selected(leq, ActivityRows(leq, turns, conversations), limit);
      var turn := if IsBlankOption(c.latestTurnId) then None else Lookup(turns.byId, Trim(c.latestTurnId.value));
      exists i :: 0 <= i < |r| && r[i].conversationKey == c.key &&
        !Newer(leq, if turn.Some? then TurnOccurredAt(turn.value) else c.updatedAt, r[i].occurredAt)
  {
    hide FirstOfEach, ConversationRow, ConversationRows, TurnRows, ByKey, TurnOccurredAt, IsBlankOption, Trim;
    var rows := ActivityRows(leq, turns, conversations);
    ConversationOrderIsTotal(leq);
    SortLaw(ConversationOrder(leq), conversations);
    ConversationRowTime(turns, c);
    RowIsListed(turns, Sort(ConversationOrder(leq), conversations), c);
    var row := ConversationRow(turns, c).value;
    assert row in rows;
    RowOrderIsTotal(leq);
    SortLaw(RowOrder(leq), rows);
    FirstOfEachRepresents(RowOrder(leq), Sort(RowOrder(leq), rows), row);
  }

  lemma ConversationOrderIsTotal(leq: Collation)
    requires TotalPreorder(leq)
    ensures TotalPreorder(ConversationOrder(leq))
  {
    hide NewestFirst;
    forall a, b, c | ConversationOrder(leq)(a, b) && ConversationOrder(leq)(b, c) ensures ConversationOrder(leq)(a, c) {
      NewestFirstTransitive(leq, a.updatedAt, a.key, b.updatedAt, b.key, c.updatedAt, c.key);
    }
    forall a, b ensures ConversationOrder(leq)(a, b) || ConversationOrder(leq)(b, a) {
      NewestFirstTotal(leq, a.updatedAt, a.key, b.updatedAt, b.key);
    }
  }

  lemma ConversationRowTime(turns: Turns, c: Conversation)
    requires !IsBlankOption(c.latestTurnId) || c.latestTurnStatus.Some? || c.hasActiveTurn
    ensures var turn := if IsBlankOption(c.latestTurnId) then None else Lookup(turns.byId, Trim(c.latestTurnId.value));
      && ConversationRow(turns, c).Some? && ConversationRow(turns, c).value.conversationKey == c.key
      && ConversationRow(turns, c).value.occurredAt ==
        if turn.Some? then TurnOccurredAt(turn.value) else c.updatedAt
  {
    hide Trim, TurnOccurredAt;
  }

  lemma {:induction false} ListedRowHasConversation(turns: Turns, conversations: seq<Conversation>, row: Row)
    requires row in ConversationRows(turns, conversations)
    ensures exists c :: c in conversations && ConversationRow(turns, c) == Some(row)
  {
    hide ConversationRow;
    var front, last := conversations[..|conversations| - 1], conversations[|conversations| - 1];
    assert conversations == front + [last];
    if row in ConversationRows(turns, front) {
      ListedRowHasConversation(turns, front, row);
      var c :| c in front && ConversationRow(turns, c) == Some(row);
      assert c in conversations;
    } else {
      assert last in conversations;
    }
  }

  /** The merged rows are exactly those of some conversation or of some turn. */
  lemma ActivityRowsMeaning(leq: Collation, turns: Turns, conversations: seq<Conversation>, row: Row)
    requires TotalPreorder(leq)
    ensures row in ActivityRows(leq, turns, conversations) <==>
      || (exists c :: c in conversations && ConversationRow(turns, c) == Some(row))
      || (exists turn :: turn in Values(turns.byId) && TurnRow(turns, ByKey(conversations), turn) == row)
  {
    hide ConversationRow, ConversationRows, TurnRow, ByKey, TotalPreorder, SortedBy, Values;
    var sorted, all := Sort(ConversationOrder(leq), conversations), Sort(TurnOrder(leq), Values(turns.byId));
    ConversationOrderIsTotal(leq);
    SortLaw(ConversationOrder(leq), conversations);
    TurnOrderIsTotal(leq);
    SortLaw(TurnOrder(leq), Values(turns.byId));
    if c :| c in conversations && ConversationRow(turns, c) == Some(row) {
      RowIsListed(turns, sorted, c);
    }
    if turn :| turn in Values(turns.byId) && TurnRow(turns, ByKey(conversations), turn) == row {
      var i :| 0 <= i < |all| && all[i] == turn;
      assert TurnRows(turns, ByKey(conversations), all)[i] == row;
    }
    if row in ConversationRows(turns, sorted) {
      ListedRowHasConversation(turns, sorted, row);
    } else if row in TurnRows(turns, ByKey(conversations), all) {
      var i :| 0 <= i < |all| && TurnRows(turns, ByKey(conversations), all)[i] == row;
      assert all[i] in all;
    }
  }
}
