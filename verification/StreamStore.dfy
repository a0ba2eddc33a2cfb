/** services/streams/store.go as a class, with the MediaMTX webhooks that call it. */
module StreamStore {
  import opened Common
  import opened Sorting
  import opened StringOrder
  import K = StreamKeys

  /** Only one listing is possible: two ascending lists of the live channels are the same. */
  lemma ListingIsUnique(xs: seq<string>, ys: seq<string>)
    requires Ascending(Less, xs) && Ascending(Less, ys) && Elements(xs) == Elements(ys)
    ensures xs == ys
  {
    LessIsTotalOrder(Elements(xs));
    AscendingIsUnique(Less, xs, ys);
  }

  class ChannelRecord {
    const slug: string
    var keyHash: K.KeyHash
    var live: bool

    constructor (slug: string, keyHash: K.KeyHash)
      ensures State() == K.Record(slug, keyHash, false)
    {
      this.slug := slug;
      this.keyHash := keyHash;
      live := false;
    }

    function State(): K.Record
      reads this
    {
      K.Record(slug, keyHash, live)
    }
  }

  class Store {
    var channels: map<string, ChannelRecord>
    var byKeyHash: map<K.KeyHash, string>
    /** The requests so far, in the order in which they got the lock. */
    ghost var log: seq<K.Request>

    /** No two slugs share a record. */
    ghost predicate Valid()
      reads this
    {
      forall a, b :: a in channels && b in channels && channels[a] == channels[b] ==> a == b
    }

    ghost function View(): K.Registry
      reads this, channels.Values
    {
      K.Registry(map slug | slug in channels :: channels[slug].State(), byKeyHash)
    }

    /** The store is the one the model has after the same requests: its theorems are about this object. */
    ghost predicate FollowsLog()
      reads this, channels.Values
    {
      View() == K.After(log)
    }

    constructor ()
      ensures Valid() && View() == K.EMPTY_REGISTRY
      ensures log == [] && FollowsLog()
    {
      channels := map[];
      byKeyHash := map[];
      log := [];
    }

    /** A request has been served. */
    ghost method Record(before: K.Registry, q: K.Request)
      requires View() == K.Serve(before, q)
      modifies `log
      ensures log == old(log) + [q] && View() == old(View())
      ensures before == K.After(old(log)) ==> FollowsLog()
    {
      K.AfterOneMore(log, q);
      log := log + [q];
    }

    method CreateKey(slug: string, generated: Option<string>) returns (result: K.KeyResult)
      requires Valid()
      modifies this
      ensures Valid() && fresh(channels.Values - old(channels.Values))
      ensures View() == K.CreateKey(old(View()), slug, generated).0
      ensures result == K.CreateKey(old(View()), slug, generated).1
      ensures log == old(log) + [K.Create(slug, generated)] && (old(FollowsLog()) ==> FollowsLog())
    {
      ghost var before := View();
      result := AddKey(slug, generated);
      Record(before, K.Create(slug, generated));
    }

    method AddKey(slug: string, generated: Option<string>) returns (result: K.KeyResult)
      requires Valid()
      modifies `channels, `byKeyHash
      ensures Valid() && fresh(channels.Values - old(channels.Values))
      ensures View() == K.CreateKey(old(View()), slug, generated).0
      ensures result == K.CreateKey(old(View()), slug, generated).1
    {
      if slug in channels {
        return K.Failed(K.ChannelExists);
      }
      if generated.None? {
        return K.Failed(K.NoRandomness);
      }
      var hash := K.Sha256(generated.value);
      var rec := new ChannelRecord(slug, hash);
      channels := channels[slug := rec];
      assert View().channels == old(View()).channels[slug := K.Record(slug, hash, false)];
      byKeyHash := byKeyHash[hash := slug];
      result := K.Key(generated.value);
    }

    method RotateKey(slug: string, generated: Option<string>) returns (result: K.KeyResult)
      requires Valid()
      modifies `byKeyHash, `log, channels.Values`keyHash
      ensures Valid()
      ensures View() == K.RotateKey(old(View()), slug, generated).0
      ensures result == K.RotateKey(old(View()), slug, generated).1
      ensures log == old(log) + [K.Rotate(slug, generated)] && (old(FollowsLog()) ==> FollowsLog())
    {
      ghost var before := View();
      result := ReplaceKey(slug, generated);
      Record(before, K.Rotate(slug, generated));
    }

    method ReplaceKey(slug: string, generated: Option<string>) returns (result: K.KeyResult)
      requires Valid()
      modifies `byKeyHash, channels.Values`keyHash
      ensures Valid()
      ensures View() == K.RotateKey(old(View()), slug, generated).0
      ensures result == K.RotateKey(old(View()), slug, generated).1
    {
      if slug !in channels {
        return K.Failed(K.ChannelNotFound);
      }
      if generated.None? {
        return K.Failed(K.NoRandomness);
      }
      var rec := channels[slug];
      var hash := K.Sha256(generated.value);
      byKeyHash := byKeyHash - {rec.keyHash};
      rec.keyHash := hash;
      byKeyHash := byKeyHash[hash := slug];
      result := K.Key(generated.value);
    }

    method RevokeKey(slug: string) returns (error: Option<K.Error>)
      requires Valid()
      modifies this
      ensures Valid() && channels.Values <= old(channels.Values)
      ensures View() == K.RevokeKey(old(View()), slug)
      ensures error == if slug in old(channels) then None else Some(K.ChannelNotFound)
      ensures log == old(log) + [K.Revoke(slug)] && (old(FollowsLog()) ==> FollowsLog())
    {
      ghost var before := View();
      error := DropKey(slug);
      Record(before, K.Revoke(slug));
    }

    method DropKey(slug: string) returns (error: Option<K.Error>)
      requires Valid()
      modifies `channels, `byKeyHash
      ensures Valid() && channels.Values <= old(channels.Values)
      ensures View() == K.RevokeKey(old(View()), slug)
      ensures error == if slug in old(channels) then None else Some(K.ChannelNotFound)
    {
      if slug !in channels {
        return Some(K.ChannelNotFound);
      }
      byKeyHash := byKeyHash - {channels[slug].keyHash};
      channels := channels - {slug};
      error := None;
    }

    /** The lookup, and what it means for a store that has only been called through its methods. */
    method FindByKey(key: string) returns (slug: Option<string>)
      ensures slug == K.FindByKey(View(), key)
      ensures FollowsLog() && K.FreshKeys(log) ==>
                forall c :: slug == Some(c) <==> exists i: nat :: K.IsCurrent(log, i, c, key)
    {
      if FollowsLog() && K.FreshKeys(log) {
        forall c ensures K.FindByKey(View(), key) == Some(c) <==> exists i: nat :: K.IsCurrent(log, i, c, key) {
          K.FindByKeyIsLatestKey(log, c, key);
        }
      }
      var hash := K.Sha256(key);
      slug := if hash in byKeyHash then Some(byKeyHash[hash]) else None;
    }

    method SetLive(slug: string, live: bool) returns (error: Option<K.Error>)
      requires Valid()
      modifies channels.Values`live
      ensures Valid() && View() == K.SetLive(old(View()), slug, live)
      ensures error == if slug in channels then None else Some(K.ChannelNotFound)
    {
      if slug !in channels {
        return Some(K.ChannelNotFound);
      }
      channels[slug].live := live;
      error := None;
    }

    /** Exactly the live channels, in ascending order of slug, whatever the iteration order of the map. */
    method ListLive() returns (live: seq<string>)
      requires Valid()
      ensures Elements(live) == K.LiveSlugs(View()) && Ascending(Less, live)
      ensures FollowsLog() && K.FreshKeys(log) ==>
                forall c :: c in Elements(live) <==> exists i: nat :: K.IsPublishing(log, i, c)
    {
      live := CollectLive();
      if FollowsLog() && K.FreshKeys(log) {
        forall c ensures c in K.LiveSlugs(View()) <==> exists i: nat :: K.IsPublishing(log, i, c) {
          K.LiveIsLastPublish(log, c);
        }
      }
    }

    method CollectLive() returns (live: seq<string>)
      requires Valid()
      ensures Elements(live) == K.LiveSlugs(View()) && Ascending(Less, live)
    {
      live := [];
      var rest := channels.Keys;
      while rest != {}
        invariant rest <= channels.Keys && Distinct(live)
        invariant Elements(live) == set slug | slug in channels && slug !in rest && channels[slug].live
        decreases rest
      {
        var slug :| slug in rest;
        assert slug !in Elements(live);
        if channels[slug].live {
          assert Elements(live + [slug]) == Elements(live) + {slug};
          live := live + [slug];
        }
        rest := rest - {slug};
      }
      LessIsTotalOrder(Elements(live));
      SortAscends(Less, live);
      live := Sort(Less, live);
    }

    /** POST /mediamtx/auth on a well-formed body. */
    method AuthWebhook(action: string, path: string, password: string) returns (status: int)
      requires Valid()
      modifies `log, channels.Values`live
      ensures Valid() && View() == K.Serve(old(View()), K.Auth(action, path, password))
      ensures status == if K.Accepted(old(View()), K.Auth(action, path, password)) then 200 else 401
      ensures log == old(log) + [K.Auth(action, path, password)] && (old(FollowsLog()) ==> FollowsLog())
      ensures old(FollowsLog() && K.FreshKeys(log)) ==>
                (status == 200 <==>
                   || action != "publish"
                   || K.IsLatestKey(old(log), if password != "" then password else K.LastPathSegment(path)))
      ensures status == 200 || status == 401
    {
      if FollowsLog() && K.FreshKeys(log) {
        K.AcceptedExactlyWhen(log, action, path, password);
      }
      ghost var before := View();
      status := Authorise(action, path, password);
      Record(before, K.Auth(action, path, password));
    }

    method Authorise(action: string, path: string, password: string) returns (status: int)
      requires Valid()
      modifies channels.Values`live
      ensures Valid() && View() == K.Serve(old(View()), K.Auth(action, path, password))
      ensures status == if K.Accepted(old(View()), K.Auth(action, path, password)) then 200 else 401
    {
      if action != "publish" {
        return 200;
      }
      var key := password;
      if key == "" {
        key := K.LastPathSegment(path);
      }
      var slug := FindByKey(key);
      if slug.None? {
        return 401;
      }
      var _ := SetLive(slug.value, true);
      status := 200;
    }

    /** POST /mediamtx/unpublish on a well-formed body. */
    method UnpublishWebhook(path: string)
      requires Valid()
      modifies `log, channels.Values`live
      ensures Valid() && View() == K.Serve(old(View()), K.Unpublish(path))
      ensures log == old(log) + [K.Unpublish(path)] && (old(FollowsLog()) ==> FollowsLog())
    {
      ghost var before := View();
      TurnOff(path);
      Record(before, K.Unpublish(path));
    }

    method TurnOff(path: string)
      requires Valid()
      modifies channels.Values`live
      ensures Valid() && View() == K.Serve(old(View()), K.Unpublish(path))
    {
      var segment := K.LastPathSegment(path);
      var slug := FindByKey(segment);
      if slug.Some? {
        var _ := SetLive(slug.value, false);
      } else if segment in channels {
        var _ := SetLive(channels[segment].slug, false);
      }
    }
  }
}
