/**
 * The Slack side of the service (app/slack_service.py and `slack_send` in
 * main.py): page-by-page listing of channels and users, resolving a channel
 * or a person by name, and sending one message to every target of a request.
 *
 * The Slack web API is an oracle. A listing request is a function from the
 * cursor sent to the page answered (or the failure raised); a send, a direct
 * message and a permalink request are functions from their arguments to what
 * the API answered. The natural-language parser of a free-form request is an
 * oracle as well.
 */
module Slack {
  import opened Common
  import opened Strings

  // ---------------------------------------------------------------------------
  // Paged listings

  /** One page of a listing: its entries and `response_metadata.next_cursor`. */
  datatype Page<T> = Page(items: seq<T>, nextCursor: Option<string>)

  /** The loop stops after a failed request or a page with no (or an empty) cursor. */
  predicate Stops<T>(r: Result<Page<T>>)
  {
    r.Err? || r.value.nextCursor.None? || r.value.nextCursor.value == ""
  }

  /** What the API answers to the `j`-th request of a listing: the first is sent with no
      cursor, each later one with the cursor of the page before. */
  function Served<T>(fetch: Option<string> -> Result<Page<T>>, j: nat): Result<Page<T>>
  {
    if j == 0 then fetch(None)
    else match Served(fetch, j - 1)
      case Err(e) => Err(e)
      case Ok(p) => fetch(p.nextCursor)
  }

  /** The entries of the first `j` pages, in order. */
  function Gathered<T>(fetch: Option<string> -> Result<Page<T>>, j: nat): seq<T>
  {
    if j == 0 then []
    else Gathered(fetch, j - 1) + (if Served(fetch, j - 1).Ok? then Served(fetch, j - 1).value.items else [])
  }

  /** Some request of the listing stops the loop. */
  ghost predicate Ends<T>(fetch: Option<string> -> Result<Page<T>>)
  {
    exists n: nat :: Stops(Served(fetch, n))
  }

  /** `r` is what the loop gives: with `n` the first request that stops it, the failure of
      request `n`, or the entries of pages 0 to `n` in order. */
  ghost predicate ListedAs<T>(fetch: Option<string> -> Result<Page<T>>, r: Result<seq<T>>)
  {
    exists n: nat ::
      && Stops(Served(fetch, n))
      && (forall m: nat :: m < n ==> !Stops(Served(fetch, m)))
      && (Served(fetch, n).Err? ==> r == Err(Served(fetch, n).error))
      && (Served(fetch, n).Ok? ==> r == Ok(Gathered(fetch, n + 1)))
  }

  /** The loop of `list_channels` and `users_list`: request pages until one has no next
      cursor, and concatenate their entries in order. A failing request fails the whole
      listing. */
  method CollectPages<T>(fetch: Option<string> -> Result<Page<T>>) returns (r: Result<seq<T>>)
    requires Ends(fetch)
    ensures ListedAs(fetch, r)
  {
    ghost var last: nat :| Stops(Served(fetch, last));
    var acc: seq<T> := [];
    var cursor: Option<string> := None;
    ghost var j: nat := 0;
    while true
      invariant j <= last
      invariant forall m: nat :: m < j ==> !Stops(Served(fetch, m))
      invariant acc == Gathered(fetch, j)
      invariant j == 0 ==> cursor.None?
      invariant j > 0 ==> Served(fetch, j - 1).Ok? && cursor == Served(fetch, j - 1).value.nextCursor
      decreases last - j
    {
      var resp := fetch(cursor);
      assert resp == Served(fetch, j);
      if resp.Err? {
        return Err(resp.error);
      }
      acc := acc + resp.value.items;
      cursor := resp.value.nextCursor;
      if cursor.None? || cursor.value == "" {
        return Ok(acc);
      }
      j := j + 1;
    }
  }

  /** An entry is gathered exactly when some page served before holds it. */
  lemma {:induction false} GatheredMembers<T>(fetch: Option<string> -> Result<Page<T>>, n: nat, x: T)
    ensures x in Gathered(fetch, n) <==>
      exists m: nat :: m < n && Served(fetch, m).Ok? && x in Served(fetch, m).value.items
  {
    if n > 0 {
      GatheredMembers(fetch, n - 1, x);
      if x in Gathered(fetch, n) && x !in Gathered(fetch, n - 1) {
        assert Served(fetch, n - 1).Ok? && x in Served(fetch, n - 1).value.items;
      }
    }
  }

  /** A listing whose first page has an empty cursor is that page. */
  lemma SinglePageListing<T>(fetch: Option<string> -> Result<Page<T>>, r: Result<seq<T>>)
    requires fetch(None).Ok? && fetch(None).value.nextCursor == Some("")
    requires ListedAs(fetch, r)
    ensures r == Ok(fetch(None).value.items)
  {
    assert Stops(Served(fetch, 0));
    var n: nat :| Stops(Served(fetch, n)) && (forall m: nat :: m < n ==> !Stops(Served(fetch, m)))
      && (Served(fetch, n).Ok? ==> r == Ok(Gathered(fetch, n + 1)));
    assert n == 0;
    assert Served(fetch, 0) == fetch(None);
    assert Gathered(fetch, 1) == Gathered(fetch, 0) + Served(fetch, 0).value.items;
    assert Gathered(fetch, 0) == [];
    assert Gathered(fetch, 1) == fetch(None).value.items;
    assert r == Ok(Gathered(fetch, 1));
  }

  // ---------------------------------------------------------------------------
  // Channels

  /** A channel as listed; a missing `name_normalized` reads as "". */
  datatype Channel = Channel(id: string, name: Option<string>, nameNormalized: string)

  /** A listing request of `conversations.list`. */
  datatype ChannelsRequest = ChannelsRequest(types: string, cursor: Option<string>, limit: int)

  const DefaultChannelTypes: string := "public_channel,private_channel"

  /** The requests `list_channels` sends: the given types, 200 channels per page. */
  function ChannelPages(api: ChannelsRequest -> Result<Page<Channel>>, types: string): Option<string> -> Result<Page<Channel>>
  {
    c => api(ChannelsRequest(types, c, 200))
  }

  /** `list_channels`. */
  method ListChannels(types: string, api: ChannelsRequest -> Result<Page<Channel>>) returns (r: Result<seq<Channel>>)
    requires Ends(ChannelPages(api, types))
    ensures ListedAs(ChannelPages(api, types), r)
  {
    r := CollectPages(ChannelPages(api, types));
  }

  /** The name a channel is matched on: its name, or its normalised name when the name is
      missing or empty, lower-cased. */
  function ChannelName(c: Channel): (n: string)
    ensures Lower(n) == n
    ensures IsSet(c.name) ==> n == Lower(c.name.value)
    ensures !IsSet(c.name) ==> n == Lower(c.nameNormalized)
  {
    var raw := if c.name.Some? && c.name.value != "" then c.name.value else c.nameNormalized;
    LowerIdempotent(raw);
    Lower(raw)
  }

  /** `name.lstrip("#").lower()`. */
  function ChannelQuery(name: string): (q: string)
    ensures q == [] || q[0] != '#'
  {
    Lower(LStripChar(name, '#'))
  }

  /** Whether a channel's matched name is `q`. */
  function NameTest(q: string): Channel -> bool { c => ChannelName(c) == q }

  /** The id of the first channel whose matched name is `q`, or nothing. */
  function FindChannel(chans: seq<Channel>, q: string): (r: Option<string>)
    ensures r.Some? ==> exists i :: 0 <= i < |chans| && ChannelName(chans[i]) == q && r.value == chans[i].id
  {
    var i := FirstWhere(chans, NameTest(q));
    if i < |chans| then
      assert NameTest(q)(chans[i]);
      Some(chans[i].id)
    else None
  }

  /** The first channel with the queried name is the one found. */
  lemma FindChannelFirst(chans: seq<Channel>, q: string, i: int)
    requires 0 <= i < |chans| && ChannelName(chans[i]) == q
    requires forall k :: 0 <= k < i ==> ChannelName(chans[k]) != q
    ensures FindChannel(chans, q) == Some(chans[i].id)
  {
    forall k | 0 <= k < i ensures !NameTest(q)(chans[k]) {
      assert ChannelName(chans[k]) != q;
    }
    FirstWhereIs(chans, NameTest(q), i);
  }

  /** Nothing is found exactly when no channel has the queried name. */
  lemma FindChannelNone(chans: seq<Channel>, q: string)
    ensures FindChannel(chans, q).None? <==> forall i :: 0 <= i < |chans| ==> ChannelName(chans[i]) != q
  {
    var e := FirstWhere(chans, NameTest(q));
    if e == |chans| {
      forall i | 0 <= i < |chans| ensures ChannelName(chans[i]) != q {
        assert !NameTest(q)(chans[i]);
      }
    }
  }

  /** `get_channel_id_by_name` over the listed channels, with the query normalised. */
  function GetChannelIdByName(chans: seq<Channel>, name: string): (r: Option<string>)
    ensures r.Some? ==> exists i :: 0 <= i < |chans| && ChannelName(chans[i]) == ChannelQuery(name) && r.value == chans[i].id
    ensures r.None? <==> forall i :: 0 <= i < |chans| ==> ChannelName(chans[i]) != ChannelQuery(name)
  {
    FindChannelNone(chans, ChannelQuery(name));
    FindChannel(chans, ChannelQuery(name))
  }

  /** A leading '#' does not change which channel a name resolves to. */
  lemma HashPrefixIgnored(chans: seq<Channel>, name: string)
    ensures GetChannelIdByName(chans, "#" + name) == GetChannelIdByName(chans, name)
  {
    assert ("#" + name)[0] == '#';
    assert ("#" + name)[1..] == name;
  }

  // ---------------------------------------------------------------------------
  // Users

  /** The `profile` object of a user; a field that is `None` is missing. */
  datatype Profile = Profile(
    displayNameNormalized: Option<string>,
    displayName: Option<string>,
    realNameNormalized: Option<string>,
    realName: Option<string>)

  /** A workspace member as listed; a missing profile reads as an empty one. */
  datatype User = User(id: string, name: Option<string>, deleted: bool, isBot: bool, profile: Profile)

  /** A listing request of `users.list`. */
  datatype UsersRequest = UsersRequest(cursor: Option<string>, limit: int)

  /** The requests `users_list` sends: 200 members per page. */
  function UserPages(api: UsersRequest -> Result<Page<User>>): Option<string> -> Result<Page<User>>
  {
    c => api(UsersRequest(c, 200))
  }

  /** `users_list`. */
  method UsersList(api: UsersRequest -> Result<Page<User>>) returns (r: Result<seq<User>>)
    requires Ends(UserPages(api))
    ensures ListedAs(UserPages(api), r)
  {
    r := CollectPages(UserPages(api));
  }

  /** `name.lstrip("@").strip().lower()`. */
  function UserQuery(name: string): string
  {
    Lower(Strip(LStripChar(name, '@')))
  }

  /** Neither deactivated nor a bot: the only members either pass considers. */
  predicate Active(u: User)
  {
    !u.deleted && !u.isBot
  }

  /** The five names of the exact pass, each `(x or "").lower()`. */
  function ExactNames(u: User): seq<string>
  {
    [Lower(u.profile.displayNameNormalized.GetOr("")), Lower(u.profile.displayName.GetOr("")),
     Lower(u.profile.realNameNormalized.GetOr("")), Lower(u.profile.realName.GetOr("")),
     Lower(u.name.GetOr(""))]
  }

  /** Display name, real name, their normalised forms and the user name, joined by single
      spaces. */
  function JoinedNames(u: User): (j: string)
    ensures var dn, rn, dnn, rnn, nm := u.profile.displayName.GetOr(""), u.profile.realName.GetOr(""),
      u.profile.displayNameNormalized.GetOr(""), u.profile.realNameNormalized.GetOr(""), u.name.GetOr("");
      && |j| == |dn| + |rn| + |dnn| + |rnn| + |nm| + 4
      && OccursAt(j, dn, 0) && OccursAt(j, rn, |dn| + 1) && OccursAt(j, dnn, |dn| + |rn| + 2)
      && OccursAt(j, rnn, |dn| + |rn| + |dnn| + 3) && OccursAt(j, nm, |dn| + |rn| + |dnn| + |rnn| + 4)
  {
    var dn, rn, dnn, rnn, nm := u.profile.displayName.GetOr(""), u.profile.realName.GetOr(""),
      u.profile.displayNameNormalized.GetOr(""), u.profile.realNameNormalized.GetOr(""), u.name.GetOr("");
    var j := dn + " " + rn + " " + dnn + " " + rnn + " " + nm;
    assert j[..|dn|] == dn;
    assert j[|dn| + 1..|dn| + 1 + |rn|] == rn;
    assert j[|dn| + |rn| + 2..|dn| + |rn| + 2 + |dnn|] == dnn;
    assert j[|dn| + |rn| + |dnn| + 3..|dn| + |rn| + |dnn| + 3 + |rnn|] == rnn;
    assert j[|dn| + |rn| + |dnn| + |rnn| + 4..] == nm;
    j
  }

  predicate ExactMatch(u: User, q: string)
  {
    Active(u) && q in ExactNames(u)
  }

  /** The substring pass looks for the query in the lower-cased joined names. */
  predicate FuzzyMatch(u: User, q: string)
  {
    Active(u) && Contains(Lower(JoinedNames(u)), q)
  }

  /** The two passes as tests on one member. */
  function ExactTest(q: string): User -> bool { u => ExactMatch(u, q) }
  function FuzzyTest(q: string): User -> bool { u => FuzzyMatch(u, q) }

  /** The first active member one of whose names is `q`; failing that, the first active
      member whose joined names contain it; failing that, nothing. */
  function FindUser(users: seq<User>, q: string): (r: Option<string>)
    ensures r.Some? ==> exists i :: (0 <= i < |users| && users[i].id == r.value && Active(users[i])
      && (ExactMatch(users[i], q) || FuzzyMatch(users[i], q)))
  {
    var e := FirstWhere(users, ExactTest(q));
    if e < |users| then
      assert ExactTest(q)(users[e]);
      Some(users[e].id)
    else
      var f := FirstWhere(users, FuzzyTest(q));
      if f < |users| then
        assert FuzzyTest(q)(users[f]);
        Some(users[f].id)
      else None
  }

  /** `find_user_id_by_name` over the listed members, with the query normalised. */
  function FindUserIdByName(users: seq<User>, name: string): (r: Option<string>)
    ensures r.Some? ==> exists i :: (0 <= i < |users| && users[i].id == r.value && Active(users[i])
      && (ExactMatch(users[i], UserQuery(name)) || FuzzyMatch(users[i], UserQuery(name))))
    ensures r.None? <==> forall i :: 0 <= i < |users| ==> !FuzzyMatch(users[i], UserQuery(name))
  {
    var q := UserQuery(name);
    FindUserNone(users, q);
    FindUser(users, q)
  }

  /** Lower-casing keeps an occurrence where it was. */
  lemma LowerKeepsOccurrence(s: string, sub: string, i: int)
    requires OccursAt(s, sub, i)
    ensures OccursAt(Lower(s), Lower(sub), i)
  {
    assert forall k :: 0 <= k < |sub| ==> Lower(s)[i + k] == LowerChar(s[i + k]) == LowerChar(sub[k]);
  }

  lemma OccursInfix(a: string, b: string, c: string)
    ensures OccursAt(a + b + c, b, |a|)
  {
    assert (a + b + c)[|a|..|a| + |b|] == b;
  }

  /** A piece of a string, lower-cased, occurs in the lower-cased string. */
  lemma LowerInfix(a: string, b: string, c: string)
    ensures Contains(Lower(a + b + c), Lower(b))
  {
    OccursInfix(a, b, c);
    LowerKeepsOccurrence(a + b + c, b, |a|);
    assert OccursAt(Lower(a + b + c), Lower(b), |a|);
  }

  /** Each of five names, lower-cased, occurs in their lower-cased space-joined form. */
  lemma JoinedHasEach(dn: string, rn: string, dnn: string, rnn: string, nm: string, x: string)
    requires x == dn || x == rn || x == dnn || x == rnn || x == nm
    ensures Contains(Lower(dn + " " + rn + " " + dnn + " " + rnn + " " + nm), Lower(x))
  {
    var s := dn + " " + rn + " " + dnn + " " + rnn + " " + nm;
    if x == dn {
      assert s == [] + dn + (" " + rn + " " + dnn + " " + rnn + " " + nm);
      LowerInfix([], dn, " " + rn + " " + dnn + " " + rnn + " " + nm);
    } else if x == rn {
      assert s == (dn + " ") + rn + (" " + dnn + " " + rnn + " " + nm);
      LowerInfix(dn + " ", rn, " " + dnn + " " + rnn + " " + nm);
    } else if x == dnn {
      assert s == (dn + " " + rn + " ") + dnn + (" " + rnn + " " + nm);
      LowerInfix(dn + " " + rn + " ", dnn, " " + rnn + " " + nm);
    } else if x == rnn {
      assert s == (dn + " " + rn + " " + dnn + " ") + rnn + (" " + nm);
      LowerInfix(dn + " " + rn + " " + dnn + " ", rnn, " " + nm);
    } else {
      assert s == (dn + " " + rn + " " + dnn + " " + rnn + " ") + nm + [];
      LowerInfix(dn + " " + rn + " " + dnn + " " + rnn + " ", nm, []);
    }
  }

  /** Each of a member's five names occurs in its joined names, so an exact match is also a
      substring match. */
  lemma ExactImpliesFuzzy(u: User, q: string)
    requires ExactMatch(u, q)
    ensures FuzzyMatch(u, q)
  {
    var dn, rn, dnn, rnn, nm := u.profile.displayName.GetOr(""), u.profile.realName.GetOr(""),
      u.profile.displayNameNormalized.GetOr(""), u.profile.realNameNormalized.GetOr(""), u.name.GetOr("");
    var x := if q == Lower(dnn) then dnn else if q == Lower(dn) then dn
      else if q == Lower(rnn) then rnn else if q == Lower(rn) then rn else nm;
    assert q == Lower(x);
    JoinedHasEach(dn, rn, dnn, rnn, nm, x);
  }

  /** The first exact match wins, wherever substring matches stand in the list. */
  lemma FindUserExactFirst(users: seq<User>, q: string, i: int)
    requires 0 <= i < |users| && ExactMatch(users[i], q)
    requires forall k :: 0 <= k < i ==> !ExactMatch(users[k], q)
    ensures FindUser(users, q) == Some(users[i].id)
  {
    forall k | 0 <= k < i ensures !ExactTest(q)(users[k]) {
      assert !ExactMatch(users[k], q);
    }
    FirstWhereIs(users, ExactTest(q), i);
  }

  /** With no exact match anywhere, the first substring match wins. */
  lemma FindUserFuzzyFirst(users: seq<User>, q: string, i: int)
    requires forall k :: 0 <= k < |users| ==> !ExactMatch(users[k], q)
    requires 0 <= i < |users| && FuzzyMatch(users[i], q)
    requires forall k :: 0 <= k < i ==> !FuzzyMatch(users[k], q)
    ensures FindUser(users, q) == Some(users[i].id)
  {
    forall k | 0 <= k < i ensures !FuzzyTest(q)(users[k]) {
      assert !FuzzyMatch(users[k], q);
    }
    FirstWhereIs(users, FuzzyTest(q), i);
  }

  /** Nothing is found exactly when no active member's joined names contain the query. */
  lemma FindUserNone(users: seq<User>, q: string)
    ensures FindUser(users, q).None? <==> forall i :: 0 <= i < |users| ==> !FuzzyMatch(users[i], q)
  {
    var e := FirstWhere(users, ExactTest(q));
    var f := FirstWhere(users, FuzzyTest(q));
    if e < |users| {
      assert ExactTest(q)(users[e]);
      ExactImpliesFuzzy(users[e], q);
    } else if f < |users| {
      assert FuzzyTest(q)(users[f]);
    } else {
      forall i | 0 <= i < |users| ensures !FuzzyMatch(users[i], q) {
        assert !FuzzyTest(q)(users[i]);
      }
    }
  }

  /** An exact name match beats a substring match of a member listed earlier. */
  lemma ExactBeatsEarlierSubstring(a: User, b: User, q: string)
    requires FuzzyMatch(a, q) && !ExactMatch(a, q)
    requires ExactMatch(b, q)
    ensures FindUser([a, b], q) == Some(b.id)
  {
    assert !ExactTest(q)(a) && ExactTest(q)(b);
    assert [a, b][1..] == [b];
    assert FirstWhere([a, b], ExactTest(q)) == 1;
  }

  /** A leading '@' does not change who a name resolves to. */
  lemma AtPrefixIgnored(users: seq<User>, name: string)
    ensures FindUserIdByName(users, "@" + name) == FindUserIdByName(users, name)
  {
    assert ("@" + name)[0] == '@';
    assert ("@" + name)[1..] == name;
    assert LStripChar("@" + name, '@') == LStripChar(name, '@');
  }

  /** A name that is empty once trimmed matches some active member whenever there is one,
      since the empty string occurs in every text. */
  lemma EmptyNameMatchesAnyone(users: seq<User>, name: string)
    requires UserQuery(name) == []
    ensures FindUserIdByName(users, name).Some? <==> exists i :: 0 <= i < |users| && Active(users[i])
  {
    FindUserNone(users, []);
    forall i | 0 <= i < |users| && Active(users[i]) ensures FuzzyMatch(users[i], []) {
      assert OccursAt(Lower(JoinedNames(users[i])), [], 0);
    }
  }

  // ---------------------------------------------------------------------------
  // Sending

  /** A send request: free-form (`q`) or structured (`to`, `text`, `channel_id`). */
  datatype SendRequest = SendRequest(
    q: Option<string>,
    to: Option<string>,
    text: Option<string>,
    threadTs: Option<string>,
    channelId: Option<string>)

  /** A target `{"type": ..., "name": ...}`; either entry may be missing. */
  datatype Target = Target(kind: Option<string>, name: Option<string>)

  /** What the parser of a free-form request extracts; missing entries read as empty. */
  datatype ParsedSend = ParsedSend(targets: seq<Target>, text: string)

  /** The recipients and the message text a request is normalised into. */
  datatype Outgoing = Outgoing(targets: seq<Target>, text: string)

  /** The channel and timestamp of a posted message. */
  datatype Posted = Posted(channel: string, ts: string)

  /** One entry of the answer: a message posted (with its permalink, if the API gave one),
      or the failure raised while resolving or posting. */
  datatype Delivery =
    | Delivered(target: Target, channel: string, ts: string, permalink: Option<string>)
    | Failed(target: Target, error: Error)

  /** The workspace as the handler sees it: the channel and member listings, posting to a
      channel (id, text, thread), direct-messaging a member (id, text; opening the DM
      included) and fetching a permalink, whose Slack API errors read as no link. */
  datatype Workspace = Workspace(
    channels: Result<seq<Channel>>,
    users: Result<seq<User>>,
    postChannel: (Option<string>, string, Option<string>) -> Result<Posted>,
    postUser: (string, string) -> Result<Posted>,
    permalink: (string, string) -> Result<Option<string>>)

  const NeedRecipient: string := "Need a recipient and message text (provide 'q' or 'to' + 'text')."

  /** The target a structured `to` names, once stripped: a channel when it starts with '#',
      a person otherwise. */
  function ToTarget(to: string): (t: Target)
    ensures t.name == Some(Strip(to))
    ensures t.kind == Some("channel") <==> StartsWith(Strip(to), "#")
    ensures t.kind == Some("channel") || t.kind == Some("user")
  {
    var s := Strip(to);
    if StartsWith(s, "#") then Target(Some("channel"), Some(s)) else Target(Some("user"), Some(s))
  }

  /** The target types the handler knows. */
  predicate SupportedKind(k: Option<string>)
  {
    k == Some("channel_id") || k == Some("channel") || k == Some("user")
  }

  /** The targets of a structured request: one for `to`, then one for `channel_id`, each
      only when given. Both are of a type the handler knows. */
  function StructuredTargets(to: Option<string>, channelId: Option<string>): (ts: seq<Target>)
    ensures |ts| == (if IsSet(to) then 1 else 0) + (if IsSet(channelId) then 1 else 0)
    ensures IsSet(to) ==> ts[0] == ToTarget(to.value)
    ensures IsSet(channelId) ==> ts[|ts| - 1] == Target(Some("channel_id"), channelId)
    ensures forall i :: 0 <= i < |ts| ==> SupportedKind(ts[i].kind)
  {
    var fromTo := if IsSet(to) then [ToTarget(to.value)] else [];
    var fromId := if IsSet(channelId) then [Target(Some("channel_id"), channelId)] else [];
    fromTo + fromId
  }

  /** Step 1 of `slack_send`: a free-form request goes through the parser; a structured one
      gives a target for `to` and then one for `channel_id`. The text is stripped. */
  function Normalize(req: SendRequest, parse: string -> Result<ParsedSend>): (r: Result<Outgoing>)
    ensures IsSet(req.q) ==>
      && (parse(req.q.value).Err? ==> r == Err(parse(req.q.value).error))
      && (parse(req.q.value).Ok? ==>
            && r.Ok?
            && r.value.targets == parse(req.q.value).value.targets
            && r.value.text == Strip(parse(req.q.value).value.text))
    ensures !IsSet(req.q) ==>
      && r.Ok?
      && r.value.text == Strip(req.text.GetOr(""))
      && |r.value.targets| == (if IsSet(req.to) then 1 else 0) + (if IsSet(req.channelId) then 1 else 0)
      && (IsSet(req.to) ==> r.value.targets[0] == ToTarget(req.to.value))
      && (IsSet(req.channelId) ==> r.value.targets[|r.value.targets| - 1] == Target(Some("channel_id"), req.channelId))
      && (forall i :: 0 <= i < |r.value.targets| ==> SupportedKind(r.value.targets[i].kind))
  {
    if IsSet(req.q) then
      match parse(req.q.value)
      case Err(e) => Err(e)
      case Ok(p) => Ok(Outgoing(p.targets, Strip(p.text)))
    else
      Ok(Outgoing(StructuredTargets(req.to, req.channelId), Strip(req.text.GetOr(""))))
  }

  /** A message posted, then its permalink asked for; a failure of either is recorded. */
  function Posting(t: Target, sent: Result<Posted>, ws: Workspace): (d: Delivery)
    ensures d.target == t
    ensures d.Delivered? <==> sent.Ok? && ws.permalink(sent.value.channel, sent.value.ts).Ok?
    ensures d.Delivered? ==>
      && d.channel == sent.value.channel
      && d.ts == sent.value.ts
      && d.permalink == ws.permalink(sent.value.channel, sent.value.ts).value
  {
    match sent
    case Err(e) => Failed(t, e)
    case Ok(p) =>
      match ws.permalink(p.channel, p.ts)
      case Err(e) => Failed(t, e)
      case Ok(link) => Delivered(t, p.channel, p.ts, link)
  }

  /** Step 2 of `slack_send` for one target. An `Err` aborts the whole request (the HTTP
      errors the handler re-raises); every other failure is recorded in the delivery. */
  function DeliveryFor(t: Target, text: string, threadTs: Option<string>, ws: Workspace): (r: Result<Delivery>)
    ensures r.Ok? ==> r.value.target == t
    ensures r.Err? ==> r.error.HttpError? && (r.error.status == 400 || r.error.status == 404)
    ensures r.Err? && r.error.status == 400 <==> !SupportedKind(t.kind)
    ensures t.kind == Some("channel") && t.name.Some? && ws.channels.Ok? ==>
      var cid := GetChannelIdByName(ws.channels.value, t.name.value);
      (r.Err? <==> cid.None? || cid.value == "")
    ensures t.kind == Some("user") && t.name.Some? && ws.users.Ok? ==>
      var uid := FindUserIdByName(ws.users.value, t.name.value);
      (r.Err? <==> uid.None? || uid.value == "")
    ensures t.kind == Some("channel") && (t.name.None? || ws.channels.Err?) ==> r.Ok? && r.value.Failed?
    ensures t.kind == Some("user") && (t.name.None? || ws.users.Err?) ==> r.Ok? && r.value.Failed?
    ensures r.Err? ==> !SupportedKind(t.kind) || (t.name.Some? && (t.kind == Some("channel") || t.kind == Some("user")))
    ensures t.kind == Some("channel_id") ==> r == Ok(Posting(t, ws.postChannel(t.name, text, threadTs), ws))
    ensures t.kind == Some("channel") && t.name.Some? && ws.channels.Ok? && r.Ok? ==>
      r.value == Posting(t, ws.postChannel(GetChannelIdByName(ws.channels.value, t.name.value), text, threadTs), ws)
    ensures t.kind == Some("user") && t.name.Some? && ws.users.Ok? && r.Ok? ==>
      var uid := FindUserIdByName(ws.users.value, t.name.value);
      uid.Some? && r.value == Posting(t, ws.postUser(uid.value, text), ws)
  {
    if t.kind == Some("channel_id") then
      Ok(Posting(t, ws.postChannel(t.name, text, threadTs), ws))
    else if t.kind == Some("channel") then
      if t.name.None? then Ok(Failed(t, ExternalError("'NoneType' object has no attribute 'lstrip'")))
      else match ws.channels
        case Err(e) => Ok(Failed(t, e))
        case Ok(cs) =>
          var cid := GetChannelIdByName(cs, t.name.value);
          if cid.None? || cid.value == "" then
            Err(HttpError(404, "Channel " + t.name.value + " not found or bot not invited."))
          else Ok(Posting(t, ws.postChannel(cid, text, threadTs), ws))
    else if t.kind == Some("user") then
      if t.name.None? then Ok(Failed(t, ExternalError("'NoneType' object has no attribute 'lstrip'")))
      else match ws.users
        case Err(e) => Ok(Failed(t, e))
        case Ok(us) =>
          var uid := FindUserIdByName(us, t.name.value);
          if uid.None? || uid.value == "" then Err(HttpError(404, "User " + t.name.value + " not found."))
          else Ok(Posting(t, ws.postUser(uid.value, text), ws))
    else Err(HttpError(400, "Unsupported target type: " + Show(t.kind)))
  }

  /** `DeliveryFor` with the message fixed, as a function of the target. */
  function Deliver(text: string, threadTs: Option<string>, ws: Workspace): Target -> Result<Delivery>
  {
    t => DeliveryFor(t, text, threadTs, ws)
  }

  /** `slack_send`: normalise the request, refuse it with HTTP 400 when it has no target or
      no text, then deliver to each target in order. The first target whose channel or
      person cannot be found, or whose type is unsupported, aborts the request with its
      HTTP error; any other failure is recorded and the loop goes on. */
  method SlackSend(req: SendRequest, parse: string -> Result<ParsedSend>, ws: Workspace)
    returns (r: Result<seq<Delivery>>)
    ensures var n := Normalize(req, parse);
      && (n.Err? ==> r == Err(n.error))
      && (n.Ok? && (n.value.targets == [] || n.value.text == "") ==> r == Err(HttpError(400, NeedRecipient)))
      && (n.Ok? && n.value.targets != [] && n.value.text != "" ==>
            r == MapUntilErr(n.value.targets, Deliver(n.value.text, req.threadTs, ws)))
  {
    var n := Normalize(req, parse);
    if n.Err? {
      return Err(n.error);
    }
    var targets, text := n.value.targets, n.value.text;
    if targets == [] || text == "" {
      return Err(HttpError(400, NeedRecipient));
    }
    var deliveries: seq<Delivery> := [];
    for i := 0 to |targets|
      invariant MapUntilErr(targets[..i], Deliver(text, req.threadTs, ws)) == Ok(deliveries)
    {
      MapUntilErrStep(targets, i, Deliver(text, req.threadTs, ws));
      var d := DeliveryFor(targets[i], text, req.threadTs, ws);
      if d.Err? {
        MapUntilErrSticks(targets, i + 1, Deliver(text, req.threadTs, ws));
        return Err(d.error);
      }
      deliveries := deliveries + [d.value];
    }
    assert targets[..|targets|] == targets;
    r := Ok(deliveries);
  }

  /** Each delivery of a request that goes through is for its own target, in order, and
      a request that aborts does so with an HTTP 400 or 404. */
  lemma DeliveriesFollowTargets(ts: seq<Target>, text: string, threadTs: Option<string>, ws: Workspace)
    ensures var r := MapUntilErr(ts, Deliver(text, threadTs, ws));
      && (r.Ok? ==> |r.value| == |ts| && forall i :: 0 <= i < |ts| ==> r.value[i].target == ts[i])
      && (r.Err? ==> r.error.HttpError? && (r.error.status == 400 || r.error.status == 404))
  {
    var f := Deliver(text, threadTs, ws);
    MapUntilErrProperties(ts, f);
    var r := MapUntilErr(ts, f);
    if r.Ok? {
      forall i | 0 <= i < |ts| ensures r.value[i].target == ts[i] {
        assert f(ts[i]) == Ok(r.value[i]);
      }
    } else {
      var i :| 0 <= i < |ts| && f(ts[i]) == Err(r.error) && forall j :: 0 <= j < i ==> f(ts[j]).Ok?;
      assert DeliveryFor(ts[i], text, threadTs, ws) == Err(r.error);
    }
  }

  /** A structured request that aborts does so with a 404: a channel or person that
      cannot be found. */
  lemma StructuredAbortsAre404(req: SendRequest, parse: string -> Result<ParsedSend>, i: int, ws: Workspace)
    requires !IsSet(req.q)
    requires 0 <= i < |Normalize(req, parse).value.targets|
    ensures var n := Normalize(req, parse).value;
      var d := DeliveryFor(n.targets[i], n.text, req.threadTs, ws);
      d.Err? ==> d.error.HttpError? && d.error.status == 404
  {
    var n := Normalize(req, parse).value;
    assert SupportedKind(n.targets[i].kind);
  }

  /** A `to` with no surrounding whitespace names itself: a channel when it starts with '#'
      (as "#general"), a person otherwise (as "@tom"). */
  lemma ToTargetOfTrimmed(to: string)
    requires to != [] && !IsSpace(to[0]) && !IsSpace(to[|to| - 1])
    ensures ToTarget(to) == Target(if to[0] == '#' then Some("channel") else Some("user"), Some(to))
  {
    StripUnchanged(to);
  }

}
