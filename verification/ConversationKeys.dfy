/** Conversation keys: `:`-separated strings built from a channel address and parsed back. */
module ConversationKeys {
  import opened Text
  import opened Wrappers

  datatype DmScope = Shared | PerPeer | PerChannelPeer | PerAccountChannelPeer

  /** How many distinct senders a number from outside stands for. */
  datatype SenderCount = Unknown | NotFinite | Finite(count: real)

  datatype Input =
    | DirectMessage(agentKey: string, channel: string, account: Option<string>, peerId: Option<string>,
                    dmScope: Option<DmScope>, distinctDmSenders: SenderCount)
    | GroupThread(agentKey: string, channel: string, account: Option<string>, id: string)
    | ChannelThread(agentKey: string, channel: string, account: Option<string>, id: string)

  /** What a conversation key stands for. */
  datatype Address =
    | Main(agentKey: string)
    | PeerDm(agentKey: string, peerId: string)
    | ChannelPeerDm(agentKey: string, channel: string, peerId: string)
    | AccountChannelPeerDm(agentKey: string, channel: string, account: string, peerId: string)
    | Group(agentKey: string, channel: string, account: string, id: string)
    | Channel(agentKey: string, channel: string, account: string, id: string)

  datatype ParsedKey = Agent(address: Address) | Cron(jobId: string) | Hook(uuid: string) | Node(nodeId: string)

  datatype KeyError = InvalidPart | PeerRequired | InvalidAgentKey | InvalidCronKey | InvalidHookKey | InvalidNodeKey
    | UnknownKind

  // ---------- Building ----------

  predicate IsPart(s: string) {
    s != [] && ':' !in s
  }

  /** A key part after trimming, if it is one. */
  function ParsePart(s: string): Option<string> {
    if IsPart(Trim(s)) then Some(Trim(s)) else None
  }

  function ResolveDmScope(configured: Option<DmScope>, distinct: SenderCount): DmScope {
    if configured.Some? then configured.value
    else if distinct.Finite? then (if distinct.count > 1.0 then PerAccountChannelPeer else Shared)
    else PerAccountChannelPeer
  }

  function ParseRequiredPeer(peerId: Option<string>): Result<string, KeyError> {
    if peerId.None? || Trim(peerId.value) == [] then Err(PeerRequired)
    else
      var part := ParsePart(peerId.value);
      if part.Some? then Ok(part.value) else Err(InvalidPart)
  }

  function AccountOrDefault(account: Option<string>): string {
    if account.Some? then account.value else "default"
  }

  function BuildDm(agentKey: string, input: Input): Result<string, KeyError>
    requires input.DirectMessage?
  {
    var scope := ResolveDmScope(input.dmScope, input.distinctDmSenders);
    if scope == Shared then Ok("agent:" + agentKey + ":main")
    else
      var peer := ParseRequiredPeer(input.peerId);
      if peer.Err? then Err(peer.error)
      else if scope == PerPeer then Ok("agent:" + agentKey + ":dm:" + peer.value)
      else
        var channel := ParsePart(input.channel);
        if channel.None? then Err(InvalidPart)
        else if scope == PerChannelPeer then Ok("agent:" + agentKey + ":" + channel.value + ":dm:" + peer.value)
        else
          var account := ParsePart(AccountOrDefault(input.account));
          if account.None? then Err(InvalidPart)
          else Ok("agent:" + agentKey + ":" + channel.value + ":" + account.value + ":dm:" + peer.value)
  }

  function BuildAgentConversationKey(input: Input): Result<string, KeyError> {
    var agentKey := ParsePart(input.agentKey);
    if agentKey.None? then Err(InvalidPart)
    else if input.DirectMessage? then BuildDm(agentKey.value, input)
    else
      var channel, account,
        id := ParsePart(input.channel), ParsePart(AccountOrDefault(input.account)), ParsePart(input.id);
      if channel.None? || account.None? || id.None? then Err(InvalidPart)
      else
        var container := if input.GroupThread? then "group" else "channel";
        Ok("agent:" + agentKey.value + ":" + channel.value + ":" + account.value + ":" + container + ":" + id.value)
  }

  // ---------- Parsing ----------

  function ParseAgentParts(parts: seq<string>): Result<ParsedKey, KeyError> {
    if |parts| < 2 || parts[1] == [] then Err(InvalidAgentKey)
    else
      var agentKey := ParsePart(parts[1]);
      if |parts| == 3 && parts[2] == "main" then
        if agentKey.Some? then Ok(Agent(Main(agentKey.value))) else Err(InvalidPart)
      else if |parts| == 4 && parts[2] == "dm" then
        var peerId := ParsePart(parts[3]);
        if agentKey.Some? && peerId.Some? then Ok(Agent(PeerDm(agentKey.value, peerId.value))) else Err(InvalidPart)
      else if |parts| == 5 && parts[3] == "dm" then
        var channel, peerId := ParsePart(parts[2]), ParsePart(parts[4]);
        if agentKey.Some? && channel.Some? && peerId.Some? then
          Ok(Agent(ChannelPeerDm(agentKey.value, channel.value, peerId.value)))
        else Err(InvalidPart)
      else if |parts| == 6 && parts[4] in ["dm", "group", "channel"] then
        var channel, account, last := ParsePart(parts[2]), ParsePart(parts[3]), ParsePart(parts[5]);
        if agentKey.None? || channel.None? || account.None? || last.None? then Err(InvalidPart)
        else if parts[4] == "dm" then
          Ok(Agent(AccountChannelPeerDm(agentKey.value, channel.value, account.value, last.value)))
        else if parts[4] == "group" then
          Ok(Agent(Group(agentKey.value, channel.value, account.value, last.value)))
        else Ok(Agent(Channel(agentKey.value, channel.value, account.value, last.value)))
      else Err(InvalidAgentKey)
  }

  /** `isUuid` decides which strings are UUIDs. */
  function ParseTyrumKey(isUuid: string -> bool, key: string): Result<ParsedKey, KeyError> {
    var parts := Split(key, ':');
    var kind := parts[0];
    if kind == "agent" then ParseAgentParts(parts)
    else if kind == "cron" then
      if |parts| != 2 || parts[1] == [] then Err(InvalidCronKey)
      else if ParsePart(parts[1]).Some? then Ok(Cron(ParsePart(parts[1]).value)) else Err(InvalidPart)
    else if kind == "hook" then
      if |parts| != 2 || parts[1] == [] then Err(InvalidHookKey)
      else if isUuid(parts[1]) then Ok(Hook(parts[1])) else Err(InvalidPart)
    else if kind == "node" then
      if |parts| != 2 || parts[1] == [] then Err(InvalidNodeKey)
      else if ParsePart(parts[1]).Some? then Ok(Node(ParsePart(parts[1]).value)) else Err(InvalidPart)
    else Err(UnknownKind)
  }

  // ---------- What an input denotes ----------

  /** A direct message goes to the agent's main conversation when that is configured, or when nothing is and at most
      one sender is known of. */
  predicate UsesMain(input: Input)
    requires input.DirectMessage?
  {
    || input.dmScope == Some(Shared)
    || (input.dmScope.None? && input.distinctDmSenders.Finite? && input.distinctDmSenders.count <= 1.0)
  }

  /** The address an input asks for, before its parts are trimmed and checked. An unknown scope is the narrowest. */
  function Requested(input: Input): Address {
    match input
    case DirectMessage(agentKey, channel, account, peerId, dmScope, distinct) =>
      var peer := if peerId.Some? then peerId.value else "";
      if UsesMain(input) then Main(agentKey)
      else if dmScope == Some(PerPeer) then PeerDm(agentKey, peer)
      else if dmScope == Some(PerChannelPeer) then ChannelPeerDm(agentKey, channel, peer)
      else AccountChannelPeerDm(agentKey, channel, AccountOrDefault(account), peer)
    case GroupThread(agentKey, channel, account, id) => Group(agentKey, channel, AccountOrDefault(account), id)
    case ChannelThread(agentKey, channel, account, id) => Channel(agentKey, channel, AccountOrDefault(account), id)
  }

  function Trimming(a: Address): Address {
    match a
    case Main(agentKey) => Main(Trim(agentKey))
    case PeerDm(agentKey, peerId) => PeerDm(Trim(agentKey), Trim(peerId))
    case ChannelPeerDm(agentKey, channel, peerId) => ChannelPeerDm(Trim(agentKey), Trim(channel), Trim(peerId))
    case AccountChannelPeerDm(agentKey, channel, account, peerId) =>
      AccountChannelPeerDm(Trim(agentKey), Trim(channel), Trim(account), Trim(peerId))
    case Group(agentKey, channel, account, id) => Group(Trim(agentKey), Trim(channel), Trim(account), Trim(id))
    case Channel(agentKey, channel, account, id) => Channel(Trim(agentKey), Trim(channel), Trim(account), Trim(id))
  }

  /** The address after trimming and defaults. */
  function Resolved(input: Input): Address {
    Trimming(Requested(input))
  }

  /** The key of an address, part by part. */
  function Parts(a: Address): (parts: seq<string>)
    ensures 3 <= |parts| <= 6
  {
    match a
    case Main(agentKey) => ["agent", agentKey, "main"]
    case PeerDm(agentKey, peerId) => ["agent", agentKey, "dm", peerId]
    case ChannelPeerDm(agentKey, channel, peerId) => ["agent", agentKey, channel, "dm", peerId]
    case AccountChannelPeerDm(agentKey, channel, account, peerId) => ["agent", agentKey, channel, account, "dm", peerId]
    case Group(agentKey, channel, account, id) => ["agent", agentKey, channel, account, "group", id]
    case Channel(agentKey, channel, account, id) => ["agent", agentKey, channel, account, "channel", id]
  }

  /** Non-empty, free of `:` and without blanks at its ends. */
  predicate Clean(s: string) {
    IsPart(s) && Trimmed(s)
  }

  predicate WellFormed(a: Address) {
    match a
    case Main(agentKey) => Clean(agentKey)
    case PeerDm(agentKey, peerId) => Clean(agentKey) && Clean(peerId)
    case ChannelPeerDm(agentKey, channel, peerId) => Clean(agentKey) && Clean(channel) && Clean(peerId)
    case AccountChannelPeerDm(agentKey, channel, account, peerId) =>
      Clean(agentKey) && Clean(channel) && Clean(account) && Clean(peerId)
    case Group(agentKey, channel, account, id) => Clean(agentKey) && Clean(channel) && Clean(account) && Clean(id)
    case Channel(agentKey, channel, account, id) => Clean(agentKey) && Clean(channel) && Clean(account) && Clean(id)
  }

  function KeyOf(a: Address): string {
    Join(Parts(a), ':')
  }

  lemma JoinMore(a: string, rest: seq<string>)
    requires |rest| >= 1
    ensures Join([a] + rest, ':') == a + ":" + Join(rest, ':')
  {
    assert ([a] + rest)[1..] == rest;
  }

  lemma Join3(a: string, b: string, c: string)
    ensures Join([a, b, c], ':') == a + ":" + b + ":" + c
  {
    assert [a, b, c] == [a] + [b, c] && [b, c] == [b] + [c];
    JoinMore(a, [b, c]);
    JoinMore(b, [c]);
    assert a + ":" + (b + ":" + c) == a + ":" + b + ":" + c;
  }

  lemma Join4(a: string, b: string, c: string, d: string)
    ensures Join([a, b, c, d], ':') == a + ":" + b + ":" + c + ":" + d
  {
    hide Join;
    assert [a, b, c, d] == [a] + [b, c, d];
    JoinMore(a, [b, c, d]);
    Join3(b, c, d);
    assert a + ":" + (b + ":" + c + ":" + d) == a + ":" + b + ":" + c + ":" + d;
  }

  lemma Join5(a: string, b: string, c: string, d: string, e: string)
    ensures Join([a, b, c, d, e], ':') == a + ":" + b + ":" + c + ":" + d + ":" + e
  {
    hide Join;
    assert [a, b, c, d, e] == [a] + [b, c, d, e];
    JoinMore(a, [b, c, d, e]);
    Join4(b, c, d, e);
    assert a + ":" + (b + ":" + c + ":" + d + ":" + e) == a + ":" + b + ":" + c + ":" + d + ":" + e;
  }

  lemma Join6(a: string, b: string, c: string, d: string, e: string, f: string)
    ensures Join([a, b, c, d, e, f], ':') == a + ":" + b + ":" + c + ":" + d + ":" + e + ":" + f
  {
    hide Join;
    assert [a, b, c, d, e, f] == [a] + [b, c, d, e, f];
    JoinMore(a, [b, c, d, e, f]);
    Join5(b, c, d, e, f);
    assert a + ":" + (b + ":" + c + ":" + d + ":" + e + ":" + f) == a + ":" + b + ":" + c + ":" + d + ":" + e + ":" + f;
  }

  lemma Literals(prefix: string, s: string)
    ensures "agent:" + s == "agent" + ":" + s
    ensures prefix + ":main" == prefix + ":" + "main"
    ensures prefix + ":dm:" + s == prefix + ":" + "dm" + ":" + s
  {
    assert "agent:" == "agent" + ":";
    assert prefix + ":main" == prefix + (":" + "main");
    assert ":dm:" == ":" + "dm" + ":";
    assert prefix + (":" + "dm" + ":") == prefix + ":" + "dm" + ":";
  }

  lemma KeyText(a: Address)
    ensures KeyOf(a) == match a
      case Main(agentKey) => "agent:" + agentKey + ":main"
      case PeerDm(agentKey, peerId) => "agent:" + agentKey + ":dm:" + peerId
      case ChannelPeerDm(agentKey, channel, peerId) => "agent:" + agentKey + ":" + channel + ":dm:" + peerId
      case AccountChannelPeerDm(agentKey, channel, account, peerId) =>
        "agent:" + agentKey + ":" + channel + ":" + account + ":dm:" + peerId
      case Group(agentKey, channel, account, id) =>
        "agent:" + agentKey + ":" + channel + ":" + account + ":" + "group" + ":" + id
      case Channel(agentKey, channel, account, id) =>
        "agent:" + agentKey + ":" + channel + ":" + account + ":" + "channel" + ":" + id
  {
    hide Join;
    Literals("", a.agentKey);
    match a
    case Main(agentKey) =>
      Join3("agent", agentKey, "main");
      Literals("agent:" + agentKey, "");
    case PeerDm(agentKey, peerId) =>
      Join4("agent", agentKey, "dm", peerId);
      Literals("agent:" + agentKey, peerId);
    case ChannelPeerDm(agentKey, channel, peerId) =>
      Join5("agent", agentKey, channel, "dm", peerId);
      Literals("agent:" + agentKey + ":" + channel, peerId);
    case AccountChannelPeerDm(agentKey, channel, account, peerId) =>
      Join6("agent", agentKey, channel, account, "dm", peerId);
      Literals("agent:" + agentKey + ":" + channel + ":" + account, peerId);
    case Group(agentKey, channel, account, id) =>
      Join6("agent", agentKey, channel, account, "group", id);
    case Channel(agentKey, channel, account, id) =>
      Join6("agent", agentKey, channel, account, "channel", id);
  }

  /** A key is built exactly when every part its scope uses is a key part after trimming, and then it is the
      key of the resolved address. */
  lemma BuildsResolvedAddress(input: Input)
    ensures var r := BuildAgentConversationKey(input);
      && (r.Ok? <==> WellFormed(Resolved(input)))
      && (r.Ok? ==> r.value == KeyOf(Resolved(input)))
  {
    hide KeyOf, Trim, Trimmed, IsPart;
    KeyText(Resolved(input));
    TrimOfNothing();
  }

  /** The text of a built key, form by form. */
  lemma BuiltKeyText(input: Input)
    requires BuildAgentConversationKey(input).Ok?
    ensures var agent, channel := "agent:" + Trim(input.agentKey), Trim(input.channel);
      var account := if input.account.Some? then Trim(input.account.value) else "default";
      BuildAgentConversationKey(input).value == match input
        case GroupThread(_, _, _, id) => agent + ":" + channel + ":" + account + ":" + "group" + ":" + Trim(id)
        case ChannelThread(_, _, _, id) => agent + ":" + channel + ":" + account + ":" + "channel" + ":" + Trim(id)
        case DirectMessage(_, _, _, peerId, dmScope, _) =>
          var peer := if peerId.Some? then Trim(peerId.value) else "";
          if UsesMain(input) then agent + ":main"
          else if dmScope == Some(PerPeer) then agent + ":dm:" + peer
          else if dmScope == Some(PerChannelPeer) then agent + ":" + channel + ":dm:" + peer
          else agent + ":" + channel + ":" + account + ":dm:" + peer
  {
    hide Trim, Trimmed, IsPart;
    DefaultIsTrimmed();
  }

  lemma DefaultIsTrimmed()
    ensures Trim("default") == "default"
  {
    hide Trim;
    TrimOf("default");
  }

  /** Why no key is built: the peer is missing or blank where one is needed and the agent is sound; or some part is no
      key part. */
  lemma BuildFailure(input: Input)
    requires BuildAgentConversationKey(input).Err?
    ensures var error := BuildAgentConversationKey(input).error;
      && (error == PeerRequired || error == InvalidPart)
      && (error == PeerRequired <==>
        && IsPart(Trim(input.agentKey)) && input.DirectMessage? && !UsesMain(input)
        && (input.peerId.None? || Trim(input.peerId.value) == ""))
  {
    hide Trim, Trimmed, IsPart;
  }

  lemma TrimOfNothing()
    ensures Trim([]) == [] && !IsPart([])
  {
  }

  // ---------- Parsing what was built ----------

  lemma PartsHoldNoSeparator(a: Address)
    requires WellFormed(a)
    ensures forall p :: p in Parts(a) ==> ':' !in p
  {
    hide Trimmed;
  }

  /** Parsing the key of an address gives the address. */
  lemma ParseOfKey(isUuid: string -> bool, a: Address)
    requires WellFormed(a)
    ensures ParseTyrumKey(isUuid, KeyOf(a)) == Ok(Agent(a))
  {
    hide Trimmed, Trim, Join, Split;
    PartsHoldNoSeparator(a);
    SplitJoin(Parts(a), ':');
  }

  /** Parsing a built key gives back the resolved address. */
  lemma ParseOfBuilt(isUuid: string -> bool, input: Input)
    requires BuildAgentConversationKey(input).Ok?
    ensures ParseTyrumKey(isUuid, BuildAgentConversationKey(input).value) == Ok(Agent(Resolved(input)))
  {
    hide BuildAgentConversationKey, ParseTyrumKey, WellFormed, Resolved, KeyOf;
    BuildsResolvedAddress(input);
    ParseOfKey(isUuid, Resolved(input));
  }

  /** Two inputs give the same key exactly when they resolve to the same address. */
  lemma SameKeyIffSameAddress(i: Input, j: Input)
    requires BuildAgentConversationKey(i).Ok? && BuildAgentConversationKey(j).Ok?
    ensures BuildAgentConversationKey(i) == BuildAgentConversationKey(j) <==> Resolved(i) == Resolved(j)
  {
    hide BuildAgentConversationKey, ParseTyrumKey, WellFormed, Resolved, KeyOf;
    var noUuid: string -> bool := (s: string) => false;
    BuildsResolvedAddress(i);
    BuildsResolvedAddress(j);
    ParseOfBuilt(noUuid, i);
    ParseOfBuilt(noUuid, j);
  }

  // ---------- The key patterns ----------

  datatype Pattern = MainPattern | PeerPattern | ChannelPeerPattern | AccountChannelPeerPattern | GroupPattern
    | ChannelPattern

  /** A pattern as its `:`-separated fields: a literal, or any non-empty string without `:`. */
  function Fields(p: Pattern): seq<Option<string>> {
    match p
    case MainPattern => [Some("agent"), None, Some("main")]
    case PeerPattern => [Some("agent"), None, Some("dm"), None]
    case ChannelPeerPattern => [Some("agent"), None, None, Some("dm"), None]
    case AccountChannelPeerPattern => [Some("agent"), None, None, None, Some("dm"), None]
    case GroupPattern => [Some("agent"), None, None, None, Some("group"), None]
    case ChannelPattern => [Some("agent"), None, None, None, Some("channel"), None]
  }

  predicate Fits(parts: seq<string>, fields: seq<Option<string>>) {
    |parts| == |fields| && forall i :: 0 <= i < |parts| ==>
      if fields[i].Some? then parts[i] == fields[i].value else IsPart(parts[i])
  }

  ghost predicate Matches(p: Pattern, key: string) {
    exists parts :: |parts| >= 1 && Fits(parts, Fields(p)) && key == Join(parts, ':')
  }

  function PatternOf(a: Address): Pattern {
    match a
    case Main(_) => MainPattern
    case PeerDm(_, _) => PeerPattern
    case ChannelPeerDm(_, _, _) => ChannelPeerPattern
    case AccountChannelPeerDm(_, _, _, _) => AccountChannelPeerPattern
    case Group(_, _, _, _) => GroupPattern
    case Channel(_, _, _, _) => ChannelPattern
  }

  lemma FieldsHoldNoSeparator(p: Pattern)
    ensures forall i :: 0 <= i < |Fields(p)| && Fields(p)[i].Some? ==> ':' !in Fields(p)[i].value
  {
  }

  /** A key matches a pattern exactly when its parts fit the pattern's fields. */
  lemma MatchesIsFits(p: Pattern, key: string)
    ensures Matches(p, key) <==> Fits(Split(key, ':'), Fields(p))
  {
    hide Split, Join, Fields;
    JoinSplit(key, ':');
    FieldsHoldNoSeparator(p);
    if Matches(p, key) {
      var parts :| |parts| >= 1 && Fits(parts, Fields(p)) && key == Join(parts, ':');
      forall q | q in parts ensures ':' !in q {
        var i :| 0 <= i < |parts| && parts[i] == q;
      }
      SplitJoin(parts, ':');
    }
  }

  /** No key matches two patterns. */
  lemma PatternsAreDisjoint(p: Pattern, q: Pattern, key: string)
    requires Matches(p, key) && Matches(q, key)
    ensures p == q
  {
    hide Split, Matches, IsPart;
    MatchesIsFits(p, key);
    MatchesIsFits(q, key);
    var parts := Split(key, ':');
    assert |parts| == |Fields(p)| == |Fields(q)|;
    if |parts| == 6 {
      assert parts[4] == Fields(p)[4].value == Fields(q)[4].value;
    }
  }

  lemma KeyFits(a: Address)
    requires WellFormed(a)
    ensures Fits(Parts(a), Fields(PatternOf(a)))
  {
    hide Trimmed;
  }

  /** Every built key matches exactly one of the patterns, the one for its address. */
  lemma BuiltKeyMatchesOnePattern(input: Input, p: Pattern)
    requires BuildAgentConversationKey(input).Ok?
    ensures Matches(p, BuildAgentConversationKey(input).value) <==> p == PatternOf(Resolved(input))
  {
    hide BuildAgentConversationKey, Resolved, WellFormed, Fits, Fields, PatternOf, Join;
    var a := Resolved(input);
    BuildsResolvedAddress(input);
    KeyFits(a);
    assert Matches(PatternOf(a), KeyOf(a));
    if Matches(p, KeyOf(a)) {
      PatternsAreDisjoint(p, PatternOf(a), KeyOf(a));
    }
  }

  // ---------- Parsing any string ----------

  predicate NoBlankPart(parts: seq<string>) {
    forall i :: 0 <= i < |parts| ==> Trim(parts[i]) != []
  }

  predicate TrimmedParts(parts: seq<string>) {
    forall i :: 0 <= i < |parts| ==> Trimmed(parts[i])
  }

  ghost predicate MatchesSome(key: string) {
    exists p: Pattern :: Matches(p, key)
  }

  predicate FitsSome(parts: seq<string>) {
    || Fits(parts, Fields(MainPattern)) || Fits(parts, Fields(PeerPattern)) || Fits(parts, Fields(ChannelPeerPattern))
    || Fits(parts, Fields(AccountChannelPeerPattern)) || Fits(parts, Fields(GroupPattern)) ||
      Fits(parts, Fields(ChannelPattern))
  }

  lemma MatchesSomeIsFitsSome(key: string)
    ensures MatchesSome(key) <==> FitsSome(Split(key, ':'))
  {
    hide Fits, Fields, Matches, Split;
    MatchesIsFits(MainPattern, key);
    MatchesIsFits(PeerPattern, key);
    MatchesIsFits(ChannelPeerPattern, key);
    MatchesIsFits(AccountChannelPeerPattern, key);
    MatchesIsFits(GroupPattern, key);
    MatchesIsFits(ChannelPattern, key);
    if MatchesSome(key) {
      var p: Pattern :| Matches(p, key);
      match p
      case MainPattern =>
      case PeerPattern =>
      case ChannelPeerPattern =>
      case AccountChannelPeerPattern =>
      case GroupPattern =>
      case ChannelPattern =>
    }
  }

  predicate ParsesAsAgent(isUuid: string -> bool, key: string) {
    var r := ParseTyrumKey(isUuid, key);
    r.Ok? && r.value.Agent?
  }

  /** Parsing accepts as an agent key exactly the keys that match a pattern and have no blank part. */
  lemma AgentKeysAreThePatterns(isUuid: string -> bool, key: string)
    ensures ParsesAsAgent(isUuid, key) <==> MatchesSome(key) && NoBlankPart(Split(key, ':'))
  {
    hide MatchesSome, Split, Trim, Trimmed;
    var parts := Split(key, ':');
    MatchesSomeIsFitsSome(key);
    LiteralsAreTrimmed();
    TrimOfNothing();
    forall i | 0 <= i < |parts| ensures ':' !in parts[i] && ':' !in Trim(parts[i]) {
      assert parts[i] in parts;
      TrimKeeps(parts[i], ':');
    }
  }

  /** The literal fields of an agent key are in place, whatever its other fields hold. */
  predicate HasLiterals(parts: seq<string>, p: Pattern) {
    |parts| == |Fields(p)| && forall i :: 0 <= i < |parts| && Fields(p)[i].Some? ==> parts[i] == Fields(p)[i].value
  }

  predicate HasLiteralsOfSome(parts: seq<string>) {
    || HasLiterals(parts, MainPattern) || HasLiterals(parts, PeerPattern) || HasLiterals(parts, ChannelPeerPattern)
    || HasLiterals(parts, AccountChannelPeerPattern) || HasLiterals(parts, GroupPattern)
    || HasLiterals(parts, ChannelPattern)
  }

  /** An agent key is malformed if its agent is missing or empty or its literals are those of no pattern; if its form is
      sound, it fails for a part. */
  lemma AgentKeyErrors(isUuid: string -> bool, key: string)
    requires Split(key, ':')[0] == "agent" && ParseTyrumKey(isUuid, key).Err?
    ensures var parts, error := Split(key, ':'), ParseTyrumKey(isUuid, key).error;
      && (error == InvalidAgentKey || error == InvalidPart)
      && (error == InvalidPart <==> |parts| >= 2 && parts[1] != [] && HasLiteralsOfSome(parts))
  {
    hide Split, Trim, Trimmed;
  }

  /** How a key of one of the other kinds is read: its one part, not empty, and trimmed where it is no UUID. */
  lemma OtherKeys(isUuid: string -> bool, key: string, id: string)
    ensures var parts, r := Split(key, ':'), ParseTyrumKey(isUuid, key);
      var one := |parts| == 2 && parts[1] != [];
      && (r == Ok(Cron(id)) <==> parts[0] == "cron" && one && Trim(parts[1]) == id && id != [])
      && (r == Ok(Node(id)) <==> parts[0] == "node" && one && Trim(parts[1]) == id && id != [])
      && (r == Ok(Hook(id)) <==> parts[0] == "hook" && one && parts[1] == id && isUuid(id))
      && (r == Err(InvalidCronKey) <==> parts[0] == "cron" && !one)
      && (r == Err(InvalidNodeKey) <==> parts[0] == "node" && !one)
      && (r == Err(InvalidHookKey) <==> parts[0] == "hook" && !one)
      && (r == Err(UnknownKind) <==> parts[0] !in ["agent", "cron", "hook", "node"])
  {
    hide Split, Trim, Trimmed;
    var parts := Split(key, ':');
    if |parts| == 2 {
      assert parts[1] in parts;
      TrimKeeps(parts[1], ':');
    }
  }

  /** Printing what was parsed gives the key back exactly when none of its parts is padded with blanks. */
  lemma ParsePrintRoundTrip(isUuid: string -> bool, key: string)
    requires ParsesAsAgent(isUuid, key)
    ensures KeyOf(ParseTyrumKey(isUuid, key).value.address) == key <==> TrimmedParts(Split(key, ':'))
  {
    hide Split, Trim, Trimmed, Join;
    var a, parts := ParseTyrumKey(isUuid, key).value.address, Split(key, ':');
    ParsedIsTrimmed(isUuid, key);
    JoinSplit(key, ':');
    if KeyOf(a) == key {
      PartsHoldNoSeparator(a);
      SplitJoin(Parts(a), ':');
      assert forall i :: 0 <= i < |parts| ==> Parts(a)[i] == Trim(parts[i]);
    }
    if TrimmedParts(parts) {
      assert forall i :: 0 <= i < |parts| ==> Parts(a)[i] == Trim(parts[i]) == parts[i];
      assert Parts(a) == parts;
    }
  }

  lemma ParsedIsTrimmed(isUuid: string -> bool, key: string)
    requires ParsesAsAgent(isUuid, key)
    ensures var a, parts := ParseTyrumKey(isUuid, key).value.address, Split(key, ':');
      WellFormed(a) && |Parts(a)| == |parts| && forall i :: 0 <= i < |parts| ==> Parts(a)[i] == Trim(parts[i])
  {
    hide Split, Trim, Trimmed;
    LiteralsAreTrimmed();
  }

  lemma LiteralsAreTrimmed()
    ensures Trim("agent") == "agent" && Trim("main") == "main" && Trim("dm") == "dm"
    ensures Trim("group") == "group" && Trim("channel") == "channel"
  {
    hide Trim;
    TrimOf("agent");
    TrimOf("main");
    TrimOf("dm");
    TrimOf("group");
    TrimOf("channel");
  }

  lemma TrimOf(s: string)
    requires s != [] && !IsBlank(s[0]) && !IsBlank(s[|s| - 1])
    ensures Trim(s) == s
  {
  }

  /** A padded part does not survive: the key is read, but printed without the blank. */
  lemma PaddedPartIsTrimmed(isUuid: string -> bool)
    ensures ParseTyrumKey(isUuid, "agent:a :main") == Ok(Agent(Main("a")))
    ensures KeyOf(Main("a")) == "agent:a:main"
  {
    hide Trim, Split, Join;
    var parts := ["agent", "a ", "main"];
    Join3("agent", "a ", "main");
    Join3("agent", "a", "main");
    SplitJoin(parts, ':');
    assert Join(parts, ':') == "agent:a :main";
    TrimOfPadded();
  }

  lemma TrimOfPadded()
    ensures Trim("a ") == "a"
  {
    assert "a "[..1] == "a";
  }
}
