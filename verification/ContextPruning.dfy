/** Deterministic context compaction: what is kept of a message list that is too long. */
module ContextPruning {
  import opened Wrappers

  datatype Role = System | User | Assistant | Tool

  datatype Message = Message(role: Role, content: string)

  datatype Config = Config(maxMessages: real, toolPruneKeepLastMessages: real)

  /** Whole limits: no limit is 0, any other at least 8, and at least 2 recent messages keep their tool calls. */
  datatype Limits = Limits(maxMessages: nat, keepLast: nat)

  function Max(a: int, b: int): int {
    if a < b then b else a
  }

  function Min(a: int, b: int): int {
    if a < b then a else b
  }

  function NormalizeConfig(cfg: Option<Config>): (l: Limits)
    ensures l.maxMessages == 0 || l.maxMessages >= 8
    ensures l.keepLast >= 2
  {
    var requested := if cfg.Some? then cfg.value.maxMessages.Floor else 0;
    var keep := if cfg.Some? then cfg.value.toolPruneKeepLastMessages.Floor else 4;
    Limits(if requested <= 0 then 0 else Max(8, requested), Max(2, keep))
  }

  /** What a whole number says about a given limit: it is the limit rounded down, or the least allowed one. */
  predicate RoundsDown(limit: real, least: nat, n: nat) {
    if limit < least as real then n == least else n as real <= limit < (n + 1) as real
  }

  /** Without a configuration nothing is limited and 4 messages are spared. A message limit below 1 means none, any
      other is rounded down to at least 8, and the number of spared messages is rounded down to at least 2. */
  lemma NormalizedLimits(cfg: Option<Config>)
    ensures var l := NormalizeConfig(cfg);
      && (cfg.None? ==> l == Limits(0, 4))
      && (cfg.Some? ==> (l.maxMessages == 0 <==> cfg.value.maxMessages < 1.0))
      && (cfg.Some? && cfg.value.maxMessages >= 1.0 ==> RoundsDown(cfg.value.maxMessages, 8, l.maxMessages))
      && (cfg.Some? ==> RoundsDown(cfg.value.toolPruneKeepLastMessages, 2, l.keepLast))
  {
  }

  /** `n` trailing messages are within both limits: what is asked for, and fewer than may be kept at all. */
  predicate Sparable(l: Limits, n: nat) {
    n <= l.keepLast && (l.maxMessages > 0 ==> n < l.maxMessages)
  }

  /** How many trailing messages the pruning library is told to spare: the most within both limits. */
  function KeepLastToolMessages(l: Limits): (n: nat)
    requires l.maxMessages == 0 || l.maxMessages >= 8
    ensures Sparable(l, n) && forall more: nat :: Sparable(l, more) ==> more <= n
    ensures l.keepLast >= 2 ==> n >= 2
  {
    Min(l.keepLast, if l.maxMessages == 0 then l.keepLast else Max(2, l.maxMessages - 1))
  }

  // ---------- The compacted list ----------

  predicate StartsTurn(m: Message) {
    m.role.Assistant? || m.role.Tool?
  }

  /** The length of the leading run without assistant or tool messages. */
  function LeadingRun(s: seq<Message>): (n: nat)
    ensures n <= |s|
    ensures forall i :: 0 <= i < n ==> !StartsTurn(s[i])
    ensures n < |s| ==> StartsTurn(s[n])
  {
    if s != [] && !StartsTurn(s[0]) then 1 + LeadingRun(s[1..]) else 0
  }

  function HeadCount(s: seq<Message>): nat {
    if LeadingRun(s) == 0 then 1 else LeadingRun(s)
  }

  /** The first position from `start` on that holds no tool message, or the end. */
  function SkipTools(s: seq<Message>, start: nat): (r: nat)
    requires start <= |s|
    ensures start <= r <= |s|
    ensures forall i :: start <= i < r ==> s[i].role.Tool?
    ensures r < |s| ==> !s[r].role.Tool?
    decreases |s| - start
  {
    if start < |s| && s[start].role.Tool? then SkipTools(s, start + 1) else start
  }

  function Compacted(s: seq<Message>, maxMessages: nat): seq<Message> {
    if maxMessages == 0 || |s| <= maxMessages then s
    else if HeadCount(s) >= maxMessages then s[..maxMessages]
    else
      var start := SkipTools(s, |s| - (maxMessages - HeadCount(s)));
      s[..HeadCount(s)] + s[start..]
  }

  method CountHead(next: seq<Message>) returns (headCount: nat)
    ensures headCount == LeadingRun(next)
  {
    headCount := 0;
    while headCount < |next|
      invariant headCount <= LeadingRun(next)
      decreases |next| - headCount
    {
      if next[headCount].role.Assistant? || next[headCount].role.Tool? {
        break;
      }
      headCount := headCount + 1;
    }
  }

  method SkipToolMessages(next: seq<Message>, first: nat) returns (start: nat)
    requires first <= |next|
    ensures start == SkipTools(next, first)
  {
    start := first;
    while start < |next| && next[start].role.Tool?
      invariant first <= start <= SkipTools(next, first)
      decreases |next| - start
    {
      start := start + 1;
    }
  }

  /** The compaction that follows the library call, on the list it returned. */
  method Compact(pruned: seq<Message>, cfg: Option<Config>) returns (next: seq<Message>)
    ensures next == Compacted(pruned, NormalizeConfig(cfg).maxMessages)
    ensures IsCompacted(pruned, cfg, next)
  {
    hide LeadingRun, SkipTools, NormalizeConfig, IsCompacted;
    CompactionMeaning(pruned, cfg);
    var maxMessages := NormalizeConfig(cfg).maxMessages;
    next := pruned;
    if maxMessages <= 0 || |next| == 0 || |next| <= maxMessages {
      return;
    }
    var headCount := CountHead(next);
    if headCount == 0 {
      headCount := 1;
    }
    if headCount >= maxMessages {
      return next[..maxMessages];
    }
    var budget := Max(0, maxMessages - headCount);
    var start := SkipToolMessages(next, Max(headCount, |next| - budget));
    next := next[..headCount] + next[start..];
  }

  // ---------- What compaction keeps ----------

  /** A suffix of `s` that fits into `budget` messages and does not start with a tool message. */
  predicate FitsFrom(s: seq<Message>, start: int, budget: int) {
    0 <= start <= |s| && |s| - start <= budget && (start < |s| ==> !s[start].role.Tool?)
  }

  /** `r` is within the limit and is the whole leading run of `s`, up to the limit and at least one message, followed
      by the longest suffix within the remaining budget that does not start with a tool message. */
  ghost predicate Shortens(s: seq<Message>, limit: nat, head: nat, start: nat, r: seq<Message>)
    requires |s| > limit
  {
    var budget := limit - head;
    && 1 <= head <= |r| <= limit && head <= start <= |s|
    && r == s[..head] + s[start..]
    && (forall i :: 0 < i < head ==> !StartsTurn(s[i]))
    && (head > 1 ==> !StartsTurn(s[0]))
    && (head < limit && !StartsTurn(s[0]) ==> StartsTurn(s[head]))
    && FitsFrom(s, start, budget)
    && (forall other :: FitsFrom(s, other, budget) ==> start <= other)
  }

  /** What becomes of the list: with no configuration, a limit below 1, or no more messages than the limit (or than 8,
      the least one), it stays as it is; otherwise it is shortened to the limit rounded down to at least 8. */
  ghost predicate IsCompacted(s: seq<Message>, cfg: Option<Config>, r: seq<Message>) {
    if cfg.None? || cfg.value.maxMessages < 1.0 || |s| <= 8 || |s| as real <= cfg.value.maxMessages then r == s
    else exists limit: nat, head: nat, start: nat ::
      RoundsDown(cfg.value.maxMessages, 8, limit) && limit < |s| && Shortens(s, limit, head, start, r)
  }

  /** When compaction applies, it shortens the list. */
  lemma CompactionLaw(s: seq<Message>, maxMessages: nat) returns (head: nat, start: nat)
    requires maxMessages >= 2 && |s| > maxMessages
    ensures Shortens(s, maxMessages, head, start, Compacted(s, maxMessages))
  {
    hide LeadingRun, SkipTools, FitsFrom, StartsTurn;
    head := Min(HeadCount(s), maxMessages);
    start := if HeadCount(s) >= maxMessages then |s| else SkipTools(s, |s| - (maxMessages - head));
    LongestSuffix(s, maxMessages - head, start);
    assert s[|s|..] == [];
  }

  /** Skipping tool messages from where the budget allows gives the longest suffix that fits. */
  lemma LongestSuffix(s: seq<Message>, budget: nat, start: nat)
    requires budget <= |s| && start == if budget == 0 then |s| else SkipTools(s, |s| - budget)
    ensures FitsFrom(s, start, budget) && forall other :: FitsFrom(s, other, budget) ==> start <= other
  {
  }

  lemma CompactionMeaning(s: seq<Message>, cfg: Option<Config>)
    ensures IsCompacted(s, cfg, Compacted(s, NormalizeConfig(cfg).maxMessages))
  {
    hide Shortens, HeadCount, SkipTools;
    var limit := NormalizeConfig(cfg).maxMessages;
    NormalizedLimits(cfg);
    if limit > 0 && |s| > limit {
      var head, start := CompactionLaw(s, limit);
    }
  }

  /** Every tool message directly follows an assistant or tool message. */
  predicate ToolsAttached(s: seq<Message>) {
    forall i :: 0 <= i < |s| && s[i].role.Tool? ==> i > 0 && StartsTurn(s[i - 1])
  }

  /** Compaction never leaves a tool message without the message it answers. */
  lemma CompactionKeepsToolsAttached(s: seq<Message>, maxMessages: nat)
    requires maxMessages != 1 && ToolsAttached(s)
    ensures ToolsAttached(Compacted(s, maxMessages))
  {
    if maxMessages > 0 && |s| > maxMessages {
      var head, start := CompactionLaw(s, maxMessages);
      var r := Compacted(s, maxMessages);
      forall i | 0 <= i < |r| && r[i].role.Tool? ensures i > 0 && StartsTurn(r[i - 1]) {
        if i >= head {
          assert r[i] == s[start + (i - head)];
          assert i > head;
          assert r[i - 1] == s[start + (i - 1 - head)];
        }
      }
    }
  }
}
