/**
 The stream-key registry of services/streams/store.go and the MediaMTX webhooks of
 services/streams/mediamtx_handler.go on values. Each webhook handler is one step.
 */
module StreamKeys {
  import opened Common
  import opened Paths

  /** SHA-256 is taken to be injective. */
  datatype KeyHash = Sha256(key: string)

  datatype Record = Record(slug: string, keyHash: KeyHash, live: bool)

  datatype Registry = Registry(channels: map<string, Record>, byKeyHash: map<KeyHash, string>)

  datatype Error = ChannelExists | ChannelNotFound | NoRandomness

  datatype KeyResult = Key(key: string) | Failed(error: Error)

  const EMPTY_REGISTRY: Registry := Registry(map[], map[])

  /** generated is the fresh key, or None if the random source fails. */
  function CreateKey(s: Registry, slug: string, generated: Option<string>): (Registry, KeyResult) {
    if slug in s.channels then (s, Failed(ChannelExists))
    else match generated
      case None => (s, Failed(NoRandomness))
      case Some(key) =>
        (Registry(s.channels[slug := Record(slug, Sha256(key), false)], s.byKeyHash[Sha256(key) := slug]), Key(key))
  }

  function RotateKey(s: Registry, slug: string, generated: Option<string>): (Registry, KeyResult) {
    if slug !in s.channels then (s, Failed(ChannelNotFound))
    else match generated
      case None => (s, Failed(NoRandomness))
      case Some(key) =>
        var rec := s.channels[slug];
        (Registry(s.channels[slug := rec.(keyHash := Sha256(key))],
                  (s.byKeyHash - {rec.keyHash})[Sha256(key) := slug]), Key(key))
  }

  function RevokeKey(s: Registry, slug: string): Registry {
    if slug !in s.channels then s
    else Registry(s.channels - {slug}, s.byKeyHash - {s.channels[slug].keyHash})
  }

  function FindByKey(s: Registry, key: string): Option<string> {
    if Sha256(key) in s.byKeyHash then Some(s.byKeyHash[Sha256(key)]) else None
  }

  function SetLive(s: Registry, slug: string, live: bool): Registry {
    if slug !in s.channels then s
    else s.(channels := s.channels[slug := s.channels[slug].(live := live)])
  }

  function LiveSlugs(s: Registry): set<string> {
    set slug | slug in s.channels && s.channels[slug].live
  }

  // ----- paths -----

  function LastPathSegment(path: string): string {
    AfterLastSlash(TrimRight(TrimLeft(path)))
  }

  function ResolveChannelFromPath(s: Registry, path: string): Option<string> {
    var segment := LastPathSegment(path);
    match FindByKey(s, segment)
    case Some(slug) => Some(slug)
    case None => if segment in s.channels then Some(s.channels[segment].slug) else None
  }

  // ----- requests -----

  datatype Request =
    | Create(slug: string, generated: Option<string>)
    | Rotate(slug: string, generated: Option<string>)
    | Revoke(slug: string)
    | Auth(action: string, path: string, password: string)
    | Unpublish(path: string)

  /** The key an auth request presents. */
  function PresentedKey(path: string, password: string): string {
    if password == "" then LastPathSegment(path) else password
  }

  /** The channel an auth request is allowed to publish to. */
  function Authorises(s: Registry, q: Request): Option<string> {
    if q.Auth? && q.action == "publish" then FindByKey(s, PresentedKey(q.path, q.password)) else None
  }

  /** Status 200, or 401 for a publish with an unknown key. */
  predicate Accepted(s: Registry, q: Request)
    requires q.Auth?
  {
    q.action != "publish" || Authorises(s, q).Some?
  }

  function Serve(s: Registry, q: Request): Registry {
    match q
    case Create(slug, generated) => CreateKey(s, slug, generated).0
    case Rotate(slug, generated) => RotateKey(s, slug, generated).0
    case Revoke(slug) => RevokeKey(s, slug)
    case Auth(_, _, _) =>
      (match Authorises(s, q) case Some(slug) => SetLive(s, slug, true) case None => s)
    case Unpublish(path) =>
      (match ResolveChannelFromPath(s, path) case Some(slug) => SetLive(s, slug, false) case None => s)
  }

  /** The registry after all the requests, in order. */
  function After(log: seq<Request>): Registry {
    if log == [] then EMPTY_REGISTRY else Serve(After(log[..|log| - 1]), log[|log| - 1])
  }

  /** The fresh key a request would issue. */
  function Generated(q: Request): Option<string> {
    if q.Create? || q.Rotate? then q.generated else None
  }

  /** generateKey never returns a key twice. */
  ghost predicate FreshKeys(log: seq<Request>) {
    forall i, j :: 0 <= i < j < |log| && Generated(log[i]).Some? ==> Generated(log[i]) != Generated(log[j])
  }

  // ----- the two indexes -----

  /** Each channel is filed under its slug, and byKeyHash is exactly the inverse of slug to key hash. */
  ghost predicate Indexed(s: Registry) {
    && (forall slug :: slug in s.channels ==> s.channels[slug].slug == slug)
    && (forall slug :: slug in s.channels ==>
          s.channels[slug].keyHash in s.byKeyHash && s.byKeyHash[s.channels[slug].keyHash] == slug)
    && (forall h :: h in s.byKeyHash ==>
          s.byKeyHash[h] in s.channels && s.channels[s.byKeyHash[h]].keyHash == h)
  }

  /** Every filed key came out of the log. */
  ghost predicate KeysFrom(s: Registry, log: seq<Request>) {
    forall h :: h in s.byKeyHash ==> exists i :: 0 <= i < |log| && Generated(log[i]) == Some(h.key)
  }

  lemma ServeKeepsIndexed(s: Registry, q: Request)
    requires Indexed(s)
    requires Generated(q).Some? ==> Sha256(Generated(q).value) !in s.byKeyHash
    ensures Indexed(Serve(s, q))
  {
  }

  lemma ServeKeepsKeysFrom(s: Registry, log: seq<Request>, q: Request)
    requires KeysFrom(s, log)
    ensures KeysFrom(Serve(s, q), log + [q])
  {
    var t := Serve(s, q);
    forall h | h in t.byKeyHash ensures exists i :: 0 <= i < |log + [q]| && Generated((log + [q])[i]) == Some(h.key) {
      if h in s.byKeyHash {
        var i :| 0 <= i < |log| && Generated(log[i]) == Some(h.key);
        assert (log + [q])[i] == log[i];
      } else {
        assert (log + [q])[|log|] == q;
      }
    }
  }

  lemma {:induction false} IndexesStayInStep(log: seq<Request>)
    requires FreshKeys(log)
    ensures Indexed(After(log)) && KeysFrom(After(log), log)
    decreases |log|
  {
    if log != [] {
      var before, q := log[..|log| - 1], log[|log| - 1];
      assert FreshKeys(before);
      IndexesStayInStep(before);
      assert log == before + [q];
      ServeKeepsKeysFrom(After(before), before, q);
      ServeKeepsIndexed(After(before), q);
    }
  }

  // ----- which key resolves -----

  /** The request gives slug a new key. */
  predicate Issues(s: Registry, q: Request, slug: string) {
    match q
    case Create(c, generated) => c == slug && generated.Some? && slug !in s.channels
    case Rotate(c, generated) => c == slug && generated.Some? && slug in s.channels
    case _ => false
  }

  /** The request ends the validity of the key slug has. */
  predicate Supersedes(s: Registry, q: Request, slug: string) {
    Issues(s, q, slug) || q == Revoke(slug)
  }

  lemma StepResolves(s: Registry, q: Request, slug: string, key: string)
    requires Indexed(s)
    requires Generated(q).Some? ==> Sha256(Generated(q).value) !in s.byKeyHash
    ensures FindByKey(Serve(s, q), key) == Some(slug) <==>
            || (Issues(s, q, slug) && Generated(q) == Some(key))
            || (FindByKey(s, key) == Some(slug) && !Supersedes(s, q, slug))
  {
  }

  /** Request i issued key for slug, and slug got no other key and was not revoked since. */
  ghost predicate IsCurrent(log: seq<Request>, i: nat, slug: string, key: string) {
    && i < |log| && Issues(After(log[..i]), log[i], slug) && Generated(log[i]) == Some(key)
    && forall j :: i < j < |log| ==> !Supersedes(After(log[..j]), log[j], slug)
  }

  lemma CurrentOneLater(before: seq<Request>, q: Request, i: nat, slug: string, key: string)
    ensures IsCurrent(before + [q], i, slug, key) <==>
            || (i == |before| && Issues(After(before), q, slug) && Generated(q) == Some(key))
            || (IsCurrent(before, i, slug, key) && !Supersedes(After(before), q, slug))
  {
    var log := before + [q];
    assert forall j :: 0 <= j < |before| ==> log[..j] == before[..j] && log[j] == before[j];
    assert log[..|before|] == before && log[|before|] == q;
  }

  /** FindByKey answers slug exactly when key is the latest key issued for slug and slug was not revoked since. */
  lemma {:induction false} FindByKeyIsLatestKey(log: seq<Request>, slug: string, key: string)
    requires FreshKeys(log)
    ensures FindByKey(After(log), key) == Some(slug) <==> exists i: nat :: IsCurrent(log, i, slug, key)
    decreases |log|
  {
    if log != [] {
      var before, q := log[..|log| - 1], log[|log| - 1];
      FreshPrefix(log);
      assert log == before + [q];
      FindByKeyIsLatestKey(before, slug, key);
      IndexesStayInStep(before);
      StepResolves(After(before), q, slug, key);
      forall i: nat ensures IsCurrent(log, i, slug, key) <==>
          || (i == |before| && Issues(After(before), q, slug) && Generated(q) == Some(key))
          || (IsCurrent(before, i, slug, key) && !Supersedes(After(before), q, slug))
      {
        CurrentOneLater(before, q, i, slug, key);
      }
      assert IsCurrent(log, |before|, slug, key) <== Issues(After(before), q, slug) && Generated(q) == Some(key);
    }
  }

  /** A superseded or revoked key resolves to no channel, now and after any further requests. */
  lemma SupersededKeyIsDead(log: seq<Request>, i: nat, j: nat, slug: string, key: string)
    requires FreshKeys(log) && i < j < |log|
    requires Issues(After(log[..i]), log[i], slug) && Generated(log[i]) == Some(key)
    requires Supersedes(After(log[..j]), log[j], slug)
    ensures FindByKey(After(log), key) == None
  {
    forall k: nat, c ensures !IsCurrent(log, k, c, key) {
      NotCurrentAnyMore(log, i, j, slug, key, k, c);
    }
    match FindByKey(After(log), key)
    case None =>
    case Some(c) => FindByKeyIsLatestKey(log, c, key);
  }

  lemma NotCurrentAnyMore(log: seq<Request>, i: nat, j: nat, slug: string, key: string, k: nat, c: string)
    requires FreshKeys(log) && i < j < |log|
    requires Issues(After(log[..i]), log[i], slug) && Generated(log[i]) == Some(key)
    requires Supersedes(After(log[..j]), log[j], slug)
    ensures !IsCurrent(log, k, c, key)
  {
  }

  /**
   The key that a creation or rotation returns is the one that resolves to the channel from
   then on, and the one it had before does not any more; otherwise nothing changes, and the
   error says why: the channel exists, it does not, or there was no randomness.
   */
  lemma ReturnedKeyResolves(s: Registry, slug: string, generated: Option<string>)
    requires Indexed(s) && (generated.Some? ==> Sha256(generated.value) !in s.byKeyHash)
    ensures var (t, result) := CreateKey(s, slug, generated);
            match result
            case Key(key) => slug !in s.channels && generated == Some(key) && FindByKey(t, key) == Some(slug)
            case Failed(error) => t == s && if slug in s.channels then error == ChannelExists
                                            else generated.None? && error == NoRandomness
    ensures var (t, result) := RotateKey(s, slug, generated);
            match result
            case Key(key) =>
              && slug in s.channels && generated == Some(key) && FindByKey(t, key) == Some(slug)
              && forall before :: FindByKey(s, before) == Some(slug) ==> FindByKey(t, before) == None
            case Failed(error) => t == s && if slug !in s.channels then error == ChannelNotFound
                                            else generated.None? && error == NoRandomness
  {
  }

  /** The latest key issued for some channel that was not revoked since. */
  ghost predicate IsLatestKey(log: seq<Request>, key: string) {
    exists c, i: nat :: IsCurrent(log, i, c, key)
  }

  /**
   A publish is answered 200 exactly if the key it presents, the password or else the last
   path segment, is the latest one issued for a channel that was not revoked since; any
   other action always is, and changes nothing.
   */
  lemma AcceptedExactlyWhen(log: seq<Request>, action: string, path: string, password: string)
    requires FreshKeys(log)
    ensures Accepted(After(log), Auth(action, path, password)) <==>
            || action != "publish"
            || IsLatestKey(log, if password != "" then password else LastPathSegment(path))
    ensures action != "publish" ==> After(log + [Auth(action, path, password)]) == After(log)
  {
    var key := if password != "" then password else LastPathSegment(path);
    var found := FindByKey(After(log), key);
    if found.Some? {
      FindByKeyIsLatestKey(log, found.value, key);
    }
    forall c, i: nat | IsCurrent(log, i, c, key) ensures found == Some(c) {
      FindByKeyIsLatestKey(log, c, key);
    }
    AfterOneMore(log, Auth(action, path, password));
  }

  // ----- who is live -----

  predicate TurnsOff(s: Registry, q: Request, slug: string) {
    q == Revoke(slug) || (q.Unpublish? && ResolveChannelFromPath(s, q.path) == Some(slug))
  }

  lemma StepLive(s: Registry, q: Request, slug: string)
    requires Indexed(s)
    ensures slug in LiveSlugs(Serve(s, q)) <==>
            Authorises(s, q) == Some(slug) || (slug in LiveSlugs(s) && !TurnsOff(s, q, slug))
  {
  }

  /** Request i was an authorised publish of slug, which was not unpublished or revoked since. */
  ghost predicate IsPublishing(log: seq<Request>, i: nat, slug: string) {
    && i < |log| && Authorises(After(log[..i]), log[i]) == Some(slug)
    && forall j :: i < j < |log| ==> !TurnsOff(After(log[..j]), log[j], slug)
  }

  lemma PublishingOneLater(before: seq<Request>, q: Request, i: nat, slug: string)
    ensures IsPublishing(before + [q], i, slug) <==>
            || (i == |before| && Authorises(After(before), q) == Some(slug))
            || (IsPublishing(before, i, slug) && !TurnsOff(After(before), q, slug))
  {
    var log := before + [q];
    assert forall j :: 0 <= j < |before| ==> log[..j] == before[..j] && log[j] == before[j];
    assert log[..|before|] == before && log[|before|] == q;
  }

  /** The live channels are those whose last authorised publish, resolving unpublish or revocation was a publish. */
  lemma {:induction false} LiveIsLastPublish(log: seq<Request>, slug: string)
    requires FreshKeys(log)
    ensures slug in LiveSlugs(After(log)) <==> exists i: nat :: IsPublishing(log, i, slug)
    decreases |log|
  {
    if log != [] {
      var before, q := log[..|log| - 1], log[|log| - 1];
      FreshPrefix(log);
      assert log == before + [q];
      LiveIsLastPublish(before, slug);
      IndexesStayInStep(before);
      StepLive(After(before), q, slug);
      forall i: nat ensures IsPublishing(log, i, slug) <==>
          || (i == |before| && Authorises(After(before), q) == Some(slug))
          || (IsPublishing(before, i, slug) && !TurnsOff(After(before), q, slug))
      {
        PublishingOneLater(before, q, i, slug);
      }
      assert IsPublishing(log, |before|, slug) <== Authorises(After(before), q) == Some(slug);
    }
  }

  // ----- unpublishing -----

  /** No request from position i on gives slug a new key or revokes it. */
  ghost predicate KeyKept(log: seq<Request>, i: nat, slug: string) {
    forall j :: i <= j < |log| ==> !Supersedes(After(log[..j]), log[j], slug)
  }

  lemma KeptOneLater(before: seq<Request>, q: Request, i: nat, slug: string)
    requires i <= |before| && KeyKept(before + [q], i, slug)
    ensures KeyKept(before, i, slug) && !Supersedes(After(before), q, slug)
  {
    var log := before + [q];
    assert forall j :: 0 <= j < |before| ==> log[..j] == before[..j] && log[j] == before[j];
    assert log[..|before|] == before && log[|before|] == q;
  }

  lemma {:induction false} KeptKeyResolves(log: seq<Request>, i: nat, slug: string, key: string)
    requires FreshKeys(log) && i <= |log| && KeyKept(log, i, slug)
    requires FindByKey(After(log[..i]), key) == Some(slug)
    ensures FindByKey(After(log), key) == Some(slug)
    decreases |log|
  {
    if i == |log| {
      assert log[..i] == log;
    } else {
      var before, q := log[..|log| - 1], log[|log| - 1];
      FreshPrefix(log);
      PrefixSplits(log, i);
      KeptOneLater(before, q, i, slug);
      KeptKeyResolves(before, i, slug, key);
      KeptKeyResolvesNext(before, q, slug, key);
    }
  }

  lemma KeptKeyResolvesNext(before: seq<Request>, q: Request, slug: string, key: string)
    requires FreshKeys(before + [q]) && !Supersedes(After(before), q, slug)
    requires FindByKey(After(before), key) == Some(slug)
    ensures FindByKey(After(before + [q]), key) == Some(slug)
  {
    var log := before + [q];
    assert before == log[..|log| - 1];
    FreshPrefix(log);
    IndexesStayInStep(before);
    AfterOneMore(before, q);
    StepResolves(After(before), q, slug, key);
  }

  lemma PrefixSplits(log: seq<Request>, i: nat)
    requires i < |log|
    ensures log[..|log| - 1] + [log[|log| - 1]] == log && log[..|log| - 1][..i] == log[..i]
  {
  }

  lemma FreshPrefix(log: seq<Request>)
    requires FreshKeys(log) && log != []
    ensures FreshKeys(log[..|log| - 1])
  {
  }

  lemma UnpublishTurnsOff(s: Registry, path: string, slug: string)
    requires Indexed(s) && ResolveChannelFromPath(s, path) == Some(slug)
    ensures LiveSlugs(Serve(s, Unpublish(path))) == LiveSlugs(s) - {slug}
  {
    forall c ensures c in LiveSlugs(Serve(s, Unpublish(path))) <==> c in LiveSlugs(s) - {slug} {
      StepLive(s, Unpublish(path), c);
    }
  }

  /**
   A path that authorised a publish by the key embedded in it turns off exactly that
   channel when it is unpublished, if the channel's key was not changed in between.
   */
  lemma UnpublishByEmbeddedKey(log: seq<Request>, i: nat, path: string, slug: string)
    requires FreshKeys(log) && i < |log| && log[i] == Auth("publish", path, "")
    requires Authorises(After(log[..i]), log[i]) == Some(slug) && KeyKept(log, i, slug)
    ensures LiveSlugs(Serve(After(log), Unpublish(path))) == LiveSlugs(After(log)) - {slug}
  {
    KeptKeyResolves(log, i, slug, LastPathSegment(path));
    IndexesStayInStep(log);
    UnpublishTurnsOff(After(log), path, slug);
  }

  /**
   With the key in the password field the path ends in the bare slug. It resolves to that
   channel if and only if the slug is not the current key of another channel. Unpublishing
   turns off exactly the slug's channel in the one case, exactly the other one in the other.
   */
  lemma BareSlugResolves(log: seq<Request>, path: string, slug: string)
    requires FreshKeys(log) && slug in After(log).channels && LastPathSegment(path) == slug
    ensures ResolveChannelFromPath(After(log), path) == Some(slug) <==>
            forall other, i: nat :: other != slug ==> !IsCurrent(log, i, other, slug)
    ensures ResolveChannelFromPath(After(log), path) == Some(slug) ==>
            LiveSlugs(Serve(After(log), Unpublish(path))) == LiveSlugs(After(log)) - {slug}
    ensures forall other, i: nat :: other != slug && IsCurrent(log, i, other, slug) ==>
              LiveSlugs(Serve(After(log), Unpublish(path))) == LiveSlugs(After(log)) - {other}
  {
    var s := After(log);
    IndexesStayInStep(log);
    var found := FindByKey(s, slug);
    if found.Some? {
      FindByKeyIsLatestKey(log, found.value, slug);
    }
    forall other, i: nat | other != slug && IsCurrent(log, i, other, slug)
      ensures ResolveChannelFromPath(s, path) == Some(other)
      ensures LiveSlugs(Serve(s, Unpublish(path))) == LiveSlugs(s) - {other}
    {
      FindByKeyIsLatestKey(log, other, slug);
      UnpublishTurnsOff(s, path, other);
    }
    if ResolveChannelFromPath(s, path) == Some(slug) {
      UnpublishTurnsOff(s, path, slug);
    }
  }

  /** Whenever a channel is named like another one's current key, its unpublish leaves it as live as it was. */
  lemma NamedLikeAKey(log: seq<Request>, path: string, slug: string, other: string, i: nat)
    requires FreshKeys(log) && slug in After(log).channels && LastPathSegment(path) == slug
    requires other != slug && IsCurrent(log, i, other, slug)
    ensures slug in LiveSlugs(Serve(After(log), Unpublish(path))) <==> slug in LiveSlugs(After(log))
    ensures other !in LiveSlugs(Serve(After(log), Unpublish(path)))
  {
    BareSlugResolves(log, path, slug);
  }

  /** Two channels, the second named like the key of the first. */
  function TwoChannels(a: string, b: string, key: string, aLive: bool, bLive: bool): Registry {
    Registry(map[a := Record(a, Sha256(b), aLive), b := Record(b, Sha256(key), bLive)],
             map[Sha256(b) := a, Sha256(key) := b])
  }

  lemma TwoChannelsServe(a: string, b: string, key: string)
    requires a != b && b != key && key != "" && !HasSlash(b)
    ensures Serve(Serve(EMPTY_REGISTRY, Create(a, Some(b))), Create(b, Some(key)))
         == TwoChannels(a, b, key, false, false)
    ensures Serve(TwoChannels(a, b, key, false, false), Auth("publish", b, key)) == TwoChannels(a, b, key, false, true)
    ensures Serve(TwoChannels(a, b, key, false, true), Unpublish(b)) == TwoChannels(a, b, key, false, true)
    ensures LiveSlugs(TwoChannels(a, b, key, false, true)) == {b}
  {
    LastSegmentOfPlainName(b);
  }

  /** The registry after four requests. */
  lemma AfterFour(c1: Request, c2: Request, c3: Request, c4: Request)
    ensures After([c1, c2, c3, c4]) == Serve(Serve(Serve(Serve(EMPTY_REGISTRY, c1), c2), c3), c4)
  {
    AfterOneMore([], c1);
    AfterOneMore([c1], c2);
    AfterOneMore([c1, c2], c3);
    AfterOneMore([c1, c2, c3], c4);
    assert [] + [c1] == [c1] && [c1] + [c2] == [c1, c2] && [c1, c2] + [c3] == [c1, c2, c3];
    assert [c1, c2, c3] + [c4] == [c1, c2, c3, c4];
  }

  /** From an empty store: for any two names of which one is a key issued to the other, four requests reach the case. */
  lemma NameMeetsKey(a: string, b: string, key: string)
    requires a != b && b != key && key != "" && !HasSlash(b)
    ensures var log := [Create(a, Some(b)), Create(b, Some(key)), Auth("publish", b, key), Unpublish(b)];
            FreshKeys(log) && LiveSlugs(After(log)) == {b}
  {
    TwoChannelsServe(a, b, key);
    AfterFour(Create(a, Some(b)), Create(b, Some(key)), Auth("publish", b, key), Unpublish(b));
  }

  lemma AfterOneMore(before: seq<Request>, q: Request)
    ensures After(before + [q]) == Serve(After(before), q)
  {
    assert (before + [q])[..|before|] == before;
  }

  /** What generateKey issues: "sk_" and the 48 hexadecimal digits of 24 bytes. */
  predicate HasKeyForm(key: string) {
    |key| == 51 && key[..3] == "sk_" && forall i :: 3 <= i < 51 ==> '0' <= key[i] <= '9' || 'a' <= key[i] <= 'f'
  }

  /** The key whose digits are all c. */
  function KeyOf(c: char): string {
    "sk_" + seq(48, _ => c)
  }

  lemma KeyOfIsPlain(c: char)
    requires '0' <= c <= '9' || 'a' <= c <= 'f'
    ensures HasKeyForm(KeyOf(c)) && !HasSlash(KeyOf(c)) && KeyOf(c)[3] == c
  {
    var digits := seq(48, _ => c);
    assert forall i :: 0 <= i < 48 ==> digits[i] == c;
    assert forall i :: 3 <= i < 51 ==> KeyOf(c)[i] == digits[i - 3];
    assert "sk_"[0] == 's' && "sk_"[1] == 'k' && "sk_"[2] == '_';
  }

  /** With keys as they are issued: a channel that is live, unpublished, and still live. */
  lemma BareSlugCanMiss()
    ensures HasKeyForm(KeyOf('0')) && HasKeyForm(KeyOf('1'))
    ensures var log := [Create("a", Some(KeyOf('0'))), Create(KeyOf('0'), Some(KeyOf('1'))),
                        Auth("publish", KeyOf('0'), KeyOf('1')), Unpublish(KeyOf('0'))];
            FreshKeys(log) && LiveSlugs(After(log)) == {KeyOf('0')}
  {
    KeyOfIsPlain('0');
    KeyOfIsPlain('1');
    NameMeetsKey("a", KeyOf('0'), KeyOf('1'));
  }

  // ----- what the last path segment is -----

  /** A slash-free, last stretch of the path before its trailing slashes, preceded by a slash or nothing. */
  ghost predicate IsLastSegment(path: string, from: nat, to: nat) {
    && from <= to <= |path|
    && !HasSlash(path[from..to]) && (from == 0 || path[from - 1] == '/')
    && forall i :: to <= i < |path| ==> path[i] == '/'
  }

  lemma SliceOfDrop(path: string, k: nat, f: nat, body: string)
    requires k <= |path| && f <= |body| && body <= path[k..]
    ensures path[k + f..k + |body|] == body[f..]
  {
    assert body == path[k..][..|body|];
  }

  /** What follows a prefix of a dropped path, seen from the path. */
  lemma EndOfDrop(path: string, k: nat, n: nat)
    requires k + n <= |path| && forall j :: n <= j < |path[k..]| ==> path[k..][j] == '/'
    ensures forall i :: k + n <= i < |path| ==> path[i] == '/'
  {
    forall i | k + n <= i < |path| ensures path[i] == '/' {
      assert path[k..][i - k] == path[i];
    }
  }

  /** The character before position f of such a prefix. */
  lemma BeforeInDrop(path: string, k: nat, f: nat, body: string)
    requires k <= |path| && 0 < f <= |body| && body <= path[k..]
    ensures path[k + f - 1] == body[f - 1]
  {
    assert path[k + f - 1] == path[k..][f - 1];
  }

  lemma MiddleIsLastSegment(path: string, k: nat, f: nat, body: string)
    requires k <= |path| && f <= |body| && body <= path[k..]
    requires !HasSlash(body[f..]) && (f == 0 || body[f - 1] == '/')
    requires forall i :: 0 <= i < k ==> path[i] == '/'
    requires forall j :: |body| <= j < |path[k..]| ==> path[k..][j] == '/'
    ensures IsLastSegment(path, k + f, k + |body|)
  {
    SliceOfDrop(path, k, f, body);
    EndOfDrop(path, k, |body|);
    if f > 0 {
      BeforeInDrop(path, k, f, body);
    }
  }

  lemma OnlySlashes(path: string, k: nat)
    requires k <= |path| && forall i :: 0 <= i < k ==> path[i] == '/'
    requires forall j :: 0 <= j < |path[k..]| ==> path[k..][j] == '/'
    ensures forall c :: c in path ==> c == '/'
  {
    EndOfDrop(path, k, 0);
  }

  /** lastPathSegment really is the last segment; it is empty only if the path has nothing but slashes. */
  lemma LastPathSegmentIsLast(path: string) returns (from: nat, to: nat)
    ensures IsLastSegment(path, from, to) && path[from..to] == LastPathSegment(path)
    ensures LastPathSegment(path) == [] ==> forall c :: c in path ==> c == '/'
  {
    var k := TrimLeftSplits(path);
    TrimRightSplits(path[k..]);
    var body := TrimRight(path[k..]);
    var f := SegmentSplits(body);
    from, to := k + f, k + |body|;
    MiddleIsLastSegment(path, k, f, body);
    SliceOfDrop(path, k, f, body);
    if body == [] {
      OnlySlashes(path, k);
    } else {
      EndsInSegment(body);
    }
  }

  lemma EndsInSegment(body: string)
    requires body != [] && body[|body| - 1] != '/'
    ensures AfterLastSlash(body) != []
  {
  }

  lemma LastSegmentOfPlainName(name: string)
    requires !HasSlash(name)
    ensures LastPathSegment(name) == name
  {
    assert TrimLeft(name) == name && TrimRight(name) == name;
    PlainSegment(name);
  }
}
