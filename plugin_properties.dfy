/** What visit-notifications.php promises across its operations: the grace
    map's pruning and what a recorded grace does to a later visit, the
    digest flush, and the bulk action. */
module PluginProperties {
  import opened Wrappers
  import opened Php
  import opened Ip
  import opened PluginSettings
  import opened SettingsProperties
  import opened Plugin

  // ---------------------------------------------------------------------------
  // The grace map

  /** After pruning, a hash is present exactly when it had an unexpired entry. */
  lemma GraceMembership(e: seq<Entry>, k: Key, now: int)
    ensures HasKey(Prune(e, now), k) <==> exists x :: x in e && x.key == k && Unexpired(x.val, now)
  {
    if HasKey(Prune(e, now), k) {
      var x := Entry(k, Lookup(Prune(e, now), k).value);
      assert x in e && Unexpired(x.val, now);
    }
    if exists x :: x in e && x.key == k && Unexpired(x.val, now) {
      var x :| x in e && x.key == k && Unexpired(x.val, now);
      assert x in Prune(e, now);
    }
  }

  /** The grace step once its settings, the address and the stored map are known. */
  lemma GraceCheckOn(cfg: Config, req: Request, s: Site, ctx: Value, e: seq<Entry>)
    requires Setting(cfg, s, "ip_grace_period") == Success(Bool(true))
    requires cfg.host.codec.parse(req.remoteAddr).Some?
    requires Setting(cfg, s, "ip_grace_period_context") == Success(ctx)
    requires ctx == Str("site") || ctx == Str("post")
    requires GraceRead(s, ctx, req) == Arr(e)
    ensures var key := StrKey(cfg.host.md5(AnonymizeIpAddress(cfg.host.codec, req.remoteAddr).value));
      var kept := Prune(e, req.now);
      GraceCheck(cfg, req, s)
      == Outcome(Success(!HasKey(kept, key)), if |kept| == |e| then s else GraceWriteBack(s, ctx, req, Arr(kept)))
  {
  }

  /** The grace step of the gate, once the address is valid and the scope
      known, denies exactly the addresses with an unexpired entry. */
  lemma GraceCheckDenies(cfg: Config, req: Request, s: Site, ctx: Value, e: seq<Entry>)
    requires Setting(cfg, s, "ip_grace_period") == Success(Bool(true))
    requires cfg.host.codec.parse(req.remoteAddr).Some?
    requires Setting(cfg, s, "ip_grace_period_context") == Success(ctx)
    requires ctx == Str("site") || ctx == Str("post")
    requires GraceRead(s, ctx, req) == Arr(e)
    ensures var key := StrKey(cfg.host.md5(AnonymizeIpAddress(cfg.host.codec, req.remoteAddr).value));
      GraceCheck(cfg, req, s).result == Success(!exists x :: x in e && x.key == key && Unexpired(x.val, req.now))
  {
    var key := StrKey(cfg.host.md5(AnonymizeIpAddress(cfg.host.codec, req.remoteAddr).value));
    GraceCheckOn(cfg, req, s, ctx, e);
    GraceMembership(e, key, req.now);
  }

  /** ... and writes the pruned map back, where it read it, exactly when an
      entry had expired. */
  lemma GraceCheckPrunes(cfg: Config, req: Request, s: Site, ctx: Value, e: seq<Entry>)
    requires Setting(cfg, s, "ip_grace_period") == Success(Bool(true))
    requires cfg.host.codec.parse(req.remoteAddr).Some?
    requires Setting(cfg, s, "ip_grace_period_context") == Success(ctx)
    requires ctx == Str("site") || ctx == Str("post")
    requires GraceRead(s, ctx, req) == Arr(e)
    ensures var o := GraceCheck(cfg, req, s);
      (o.site == s <==> forall x :: x in e ==> Unexpired(x.val, req.now))
      && (o.site != s ==> GraceRead(o.site, ctx, req) == Arr(Prune(e, req.now)))
  {
    var kept := Prune(e, req.now);
    var t := GraceWriteBack(s, ctx, req, Arr(kept));
    GraceCheckOn(cfg, req, s, ctx, e);
    if |kept| != |e| {
      assert GraceRead(t, ctx, req) == Arr(kept);
      assert t != s by {
        assert GraceRead(t, ctx, req) != GraceRead(s, ctx, req);
      }
    }
  }

  /** Settings are read from the option store under BASE + id; the grace
      map's own option is not one of them. */
  lemma SettingIgnoresGraceData(cfg: Config, s: Site, t: Site, name: string)
    requires name != "ip_grace_period_data"
    requires forall k :: k != GRACE_DATA ==> OptionAt(t, k) == OptionAt(s, k)
    ensures Setting(cfg, t, name) == Setting(cfg, s, name)
  {
    assert (BASE + name)[|BASE|..] == name;
    assert GRACE_DATA[|BASE|..] == "ip_grace_period_data";
    assert OptionAt(t, BASE + name) == OptionAt(s, BASE + name);
    assert StoredOption(t.options, name, Bool(false)) == StoredOption(s.options, name, Bool(false));
  }

  /** The grace step with its settings known and a writable site map:
      the map with md5(ip) => expiry written into it replaces the option. */
  lemma GraceRecordSiteStep(cfg: Config, now: int, s: Site, obj: WpObject, ip: string, d: int, expiry: int)
    requires Setting(cfg, s, "ip_grace_period") == Success(Bool(true))
    requires Setting(cfg, s, "ip_grace_period_context") == Success(Str("site"))
    requires Setting(cfg, s, "ip_grace_period_duration") == Success(Int(d))
    requires expiry == now + d
    requires Writable(GetOption(s, GRACE_DATA, Arr([]))).Some?
    ensures var w := Writable(GetOption(s, GRACE_DATA, Arr([]))).value;
      GraceRecord(cfg, now, s, obj, ip)
      == Outcome(Success(()), s.(options := s.options[GRACE_DATA := Arr(Assign(w, StrKey(cfg.host.md5(ip)), Int(expiry)))]))
  {
    assert Expiry(cfg, s, now) == Success(expiry);
  }

  /** The site-scope grace step writes md5(ip) => now + duration (`expiry`)
      into the grace option, keeps its other entries and changes no other
      option. */
  lemma GraceRecordSite(cfg: Config, now: int, s: Site, obj: WpObject, ip: string, d: int, expiry: int)
    requires Setting(cfg, s, "ip_grace_period") == Success(Bool(true))
    requires Setting(cfg, s, "ip_grace_period_context") == Success(Str("site"))
    requires Setting(cfg, s, "ip_grace_period_duration") == Success(Int(d))
    requires GraceRecord(cfg, now, s, obj, ip).result.Success?
    requires expiry == now + d
    ensures Writable(GetOption(s, GRACE_DATA, Arr([]))).Some?
    ensures var after := GetOption(GraceRecord(cfg, now, s, obj, ip).site, GRACE_DATA, Arr([]));
      after.Arr?
      && Lookup(after.entries, StrKey(cfg.host.md5(ip))) == Some(Int(expiry))
      && forall k :: k != StrKey(cfg.host.md5(ip)) ==>
           Lookup(after.entries, k) == Lookup(Writable(GetOption(s, GRACE_DATA, Arr([]))).value, k)
    ensures forall k :: k != GRACE_DATA ==> OptionAt(GraceRecord(cfg, now, s, obj, ip).site, k) == OptionAt(s, k)
  {
    var w := Writable(GetOption(s, GRACE_DATA, Arr([])));
    var key := StrKey(cfg.host.md5(ip));
    var g := GraceEntry(cfg, s, now, GetOption(s, GRACE_DATA, Arr([])), ip);
    assert Expiry(cfg, s, now) == Success(expiry);
    assert w.Some? && g == Success(Arr(Assign(w.value, key, Int(expiry))));
    var t := s.(options := s.options[GRACE_DATA := g.value]);
    assert GraceRecord(cfg, now, s, obj, ip) == Outcome(Success(()), t);
    assert GetOption(t, GRACE_DATA, Arr([])) == Arr(Assign(w.value, key, Int(expiry)));
  }

  /** The post-scope grace step writes md5(ip) => now + duration into the
      object's own meta, keeps the other entries there, and changes no option
      and no other object. */
  lemma GraceRecordPost(cfg: Config, now: int, s: Site, obj: WpObject, ip: string, d: int, expiry: int)
    requires Setting(cfg, s, "ip_grace_period") == Success(Bool(true))
    requires Setting(cfg, s, "ip_grace_period_context") == Success(Str("post"))
    requires Setting(cfg, s, "ip_grace_period_duration") == Success(Int(d))
    requires GraceRecord(cfg, now, s, obj, ip).result.Success?
    requires expiry == now + d
    ensures Writable(OrEmptyArray(GetMeta(s, Some(obj), GRACE_DATA))).Some?
    ensures var t := GraceRecord(cfg, now, s, obj, ip).site;
      var after := GetMeta(t, Some(obj), GRACE_DATA);
      after.Arr?
      && Lookup(after.entries, StrKey(cfg.host.md5(ip))) == Some(Int(expiry))
      && (forall k :: k != StrKey(cfg.host.md5(ip)) ==>
            Lookup(after.entries, k) == Lookup(Writable(OrEmptyArray(GetMeta(s, Some(obj), GRACE_DATA))).value, k))
      && t.options == s.options
      && (forall x :: x != obj ==> MetaOf(t, x) == MetaOf(s, x))
  {
    var current := OrEmptyArray(GetMeta(s, Some(obj), GRACE_DATA));
    var g := GraceEntry(cfg, s, now, current, ip);
    assert Expiry(cfg, s, now) == Success(expiry);
    assert g.Success? && GraceRecord(cfg, now, s, obj, ip) == Outcome(Success(()), WithMeta(s, Some(obj), GRACE_DATA, g.value)) by {
      assert Setting(cfg, s, "ip_grace_period_context") == Success(Str("post"));
    }
  }

  /** The site grace map holds `key` with expiry `expiry`. */
  predicate SiteRemembers(s: Site, key: Key, expiry: int) {
    GetOption(s, GRACE_DATA, Arr([])).Arr?
    && Lookup(GetOption(s, GRACE_DATA, Arr([])).entries, key) == Some(Int(expiry))
  }

  /** The grace step denies an address whose hash holds an unexpired
      entry in the site map. */
  lemma GraceDeniesRemembered(cfg: Config, req: Request, s: Site, ip: string, expiry: int)
    requires Setting(cfg, s, "ip_grace_period") == Success(Bool(true))
    requires Setting(cfg, s, "ip_grace_period_context") == Success(Str("site"))
    requires cfg.host.codec.parse(req.remoteAddr).Some? && ip == VisitorIp(cfg.host, req.remoteAddr)
    requires SiteRemembers(s, StrKey(cfg.host.md5(ip)), expiry)
    requires req.now < expiry
    ensures GraceCheck(cfg, req, s).result == Success(false)
  {
    var e := GetOption(s, GRACE_DATA, Arr([])).entries;
    assert Entry(StrKey(cfg.host.md5(ip)), Int(expiry)) in e;
    GraceCheckDenies(cfg, req, s, Str("site"), e);
  }

  /** ... and so the gate does not let it through. */
  lemma GateDeniesRemembered(cfg: Config, req: Request, s: Site, ip: string, expiry: int)
    requires Setting(cfg, s, "ip_grace_period") == Success(Bool(true))
    requires Setting(cfg, s, "ip_grace_period_context") == Success(Str("site"))
    requires cfg.host.codec.parse(req.remoteAddr).Some? && ip == VisitorIp(cfg.host, req.remoteAddr)
    requires SiteRemembers(s, StrKey(cfg.host.md5(ip)), expiry)
    requires req.now < expiry
    ensures Gate(cfg, req, s).result != Success(true)
  {
    GraceDeniesRemembered(cfg, req, s, ip, expiry);
  }

  /** After the site-scope grace step the settings still say site scope,
      and the grace map holds md5(ip) => now + duration. */
  lemma GraceRecordRemembers(cfg: Config, now: int, s: Site, obj: WpObject, ip: string, d: int, expiry: int)
    requires Setting(cfg, s, "ip_grace_period") == Success(Bool(true))
    requires Setting(cfg, s, "ip_grace_period_context") == Success(Str("site"))
    requires Setting(cfg, s, "ip_grace_period_duration") == Success(Int(d))
    requires GraceRecord(cfg, now, s, obj, ip).result.Success?
    requires expiry == now + d
    ensures var t := GraceRecord(cfg, now, s, obj, ip).site;
      Setting(cfg, t, "ip_grace_period") == Success(Bool(true))
      && Setting(cfg, t, "ip_grace_period_context") == Success(Str("site"))
      && SiteRemembers(t, StrKey(cfg.host.md5(ip)), expiry)
  {
    var t := GraceRecord(cfg, now, s, obj, ip).site;
    GraceRecordSite(cfg, now, s, obj, ip, d, expiry);
    SettingIgnoresGraceData(cfg, s, t, "ip_grace_period");
    SettingIgnoresGraceData(cfg, s, t, "ip_grace_period_context");
  }

  /** A recorded visit in the site scope remembers its address until
      now + duration: the grace step of a later visit from the same address
      before then denies it (and the gate lets nothing through that the
      grace step denies). `s` is the site the record's grace step runs on. */
  lemma GraceRecordThenDeny(cfg: Config, first: Request, later: Request, s: Site, obj: WpObject, d: int)
    requires Setting(cfg, s, "ip_grace_period") == Success(Bool(true))
    requires Setting(cfg, s, "ip_grace_period_context") == Success(Str("site"))
    requires Setting(cfg, s, "ip_grace_period_duration") == Success(Int(d))
    requires cfg.host.codec.parse(first.remoteAddr).Some? && later.remoteAddr == first.remoteAddr
    requires later.now < first.now + d
    requires GraceRecord(cfg, first.now, s, obj, VisitorIp(cfg.host, first.remoteAddr)).result.Success?
    ensures GraceCheck(cfg, later, GraceRecord(cfg, first.now, s, obj, VisitorIp(cfg.host, first.remoteAddr)).site).result == Success(false)
  {
    var ip := VisitorIp(cfg.host, first.remoteAddr);
    var expiry := first.now + d;
    var t := GraceRecord(cfg, first.now, s, obj, ip).site;
    GraceRecordRemembers(cfg, first.now, s, obj, ip, d, expiry);
    assert VisitorIp(cfg.host, later.remoteAddr) == ip;
    GraceDeniesRemembered(cfg, later, t, ip, expiry);
  }

  /** Once its expiry has passed, a remembered address is let through again
      by the grace step, when the map holds each hash once. */
  lemma GraceExpiredAllows(cfg: Config, req: Request, s: Site, ip: string, expiry: int)
    requires Setting(cfg, s, "ip_grace_period") == Success(Bool(true))
    requires Setting(cfg, s, "ip_grace_period_context") == Success(Str("site"))
    requires cfg.host.codec.parse(req.remoteAddr).Some? && ip == VisitorIp(cfg.host, req.remoteAddr)
    requires SiteRemembers(s, StrKey(cfg.host.md5(ip)), expiry)
    requires UniqueKeys(GetOption(s, GRACE_DATA, Arr([])).entries)
    requires expiry <= req.now
    ensures GraceCheck(cfg, req, s).result == Success(true)
  {
    var e := GetOption(s, GRACE_DATA, Arr([])).entries;
    var key := StrKey(cfg.host.md5(ip));
    NoLiveEntry(e, key, expiry, req.now);
    GraceCheckDenies(cfg, req, s, Str("site"), e);
  }

  /** A key held once, with an expiry already passed, has no live entry. */
  lemma NoLiveEntry(e: seq<Entry>, key: Key, expiry: int, now: int)
    requires UniqueKeys(e) && Lookup(e, key) == Some(Int(expiry)) && expiry <= now
    ensures !exists x :: x in e && x.key == key && Unexpired(x.val, now)
  {
    forall x | x in e && x.key == key
      ensures !Unexpired(x.val, now)
    {
      UniqueLookup(e, x);
    }
  }

  /** The site-scope grace step keeps a map without duplicate keys so. */
  lemma GraceRecordKeepsKeysUnique(cfg: Config, now: int, s: Site, obj: WpObject, ip: string, d: int, expiry: int)
    requires Setting(cfg, s, "ip_grace_period") == Success(Bool(true))
    requires Setting(cfg, s, "ip_grace_period_context") == Success(Str("site"))
    requires Setting(cfg, s, "ip_grace_period_duration") == Success(Int(d))
    requires GraceRecord(cfg, now, s, obj, ip).result.Success?
    requires expiry == now + d
    requires Writable(GetOption(s, GRACE_DATA, Arr([]))).Some?
    requires UniqueKeys(Writable(GetOption(s, GRACE_DATA, Arr([]))).value)
    ensures UniqueKeys(GetOption(GraceRecord(cfg, now, s, obj, ip).site, GRACE_DATA, Arr([])).entries)
  {
    var w := Writable(GetOption(s, GRACE_DATA, Arr([]))).value;
    var key := StrKey(cfg.host.md5(ip));
    GraceRecordSiteStep(cfg, now, s, obj, ip, d, expiry);
    AssignKeepsKeysUnique(w, key, Int(expiry));
  }

  /** ... and from now + duration on, the same address is let through again. */
  lemma GraceRecordThenAllow(cfg: Config, first: Request, later: Request, s: Site, obj: WpObject, d: int)
    requires Setting(cfg, s, "ip_grace_period") == Success(Bool(true))
    requires Setting(cfg, s, "ip_grace_period_context") == Success(Str("site"))
    requires Setting(cfg, s, "ip_grace_period_duration") == Success(Int(d))
    requires cfg.host.codec.parse(first.remoteAddr).Some? && later.remoteAddr == first.remoteAddr
    requires first.now + d <= later.now
    requires GraceRecord(cfg, first.now, s, obj, VisitorIp(cfg.host, first.remoteAddr)).result.Success?
    requires Writable(GetOption(s, GRACE_DATA, Arr([]))).Some?
    requires UniqueKeys(Writable(GetOption(s, GRACE_DATA, Arr([]))).value)
    ensures GraceCheck(cfg, later, GraceRecord(cfg, first.now, s, obj, VisitorIp(cfg.host, first.remoteAddr)).site).result == Success(true)
  {
    var ip := VisitorIp(cfg.host, first.remoteAddr);
    var expiry := first.now + d;
    var t := GraceRecord(cfg, first.now, s, obj, ip).site;
    GraceRecordRemembers(cfg, first.now, s, obj, ip, d, expiry);
    GraceRecordKeepsKeysUnique(cfg, first.now, s, obj, ip, d, expiry);
    assert VisitorIp(cfg.host, later.remoteAddr) == ip;
    GraceExpiredAllows(cfg, later, t, ip, expiry);
  }

  /** The early checks deny before any setting is read: the answer is the
      same with no setting registered at all. */
  lemma EarlyDenyReadsNoSetting(cfg: Config, req: Request, s: Site)
    requires EarlyDeny(req, s)
    ensures Gate(cfg, req, s) == Outcome(Success(false), s)
    ensures Gate(cfg.(ids := map[]), req, s) == Outcome(Success(false), s)
  {
  }

  /** A user agent containing "bot" is denied whatever disable_crawlers holds,
      and before any setting is read. */
  lemma BotDeniedWhateverCrawlerSetting(cfg: Config, req: Request, s: Site, v: Value)
    requires IsBot(req.userAgent)
    ensures Gate(cfg, req, s.(options := s.options[BASE + "disable_crawlers" := v])).result == Success(false)
    ensures Gate(cfg.(ids := map[]), req, s) == Outcome(Success(false), s)
  {
  }

  /** The 'post' scope is written to the page's object but read from the
      global post: on a term archive the gate never sees what the record wrote. */
  lemma PostScopeMissesTerms(s: Site, req: Request, t: int, v: Value)
    requires req.resolved == Some(Term(t))
    ensures GraceRead(WithMeta(s, req.resolved, GRACE_DATA, v), Str("post"), req) == GraceRead(s, Str("post"), req)
  {
  }

  /** With the plugin's registry the logged-in policy is always a bool. */
  lemma PolicyIsABool(cfg: Config, s: Site, obj: WpObject)
    requires "enable_logged_in_users" in cfg.ids && cfg.ids["enable_logged_in_users"].ftype == Checkbox
    ensures OverridableCheckbox(cfg, s, obj, LOGGED_IN, "enable_logged_in_users").Success?
  {
  }

  // ---------------------------------------------------------------------------
  // The digest flush

  /** The grouped notifications the flush owes: one per object with a
      non-empty list, carrying the whole list, in query order. */
  function Digests(s: Site, objects: seq<WpObject>): seq<Notification> {
    if objects == [] then []
    else
      var last := objects[|objects| - 1];
      Digests(s, objects[..|objects| - 1])
      + (if Empty(GetMeta(s, Some(last), VISITORS)) then [] else [Notification(last, GetMeta(s, Some(last), VISITORS), true)])
  }

  /** Each list the flush may read is empty or an array. */
  predicate ListsWellFormed(s: Site, objects: seq<WpObject>) {
    forall o :: o in objects ==> Empty(GetMeta(s, Some(o), VISITORS)) || GetMeta(s, Some(o), VISITORS).Arr?
  }

  /** The meta an object has after the flush: its list reset to [] if it was
      sent, untouched otherwise. */
  function FlushedMeta(s: Site, objects: seq<WpObject>, x: WpObject): map<string, Value> {
    if x in objects && !Empty(GetMeta(s, Some(x), VISITORS)) then MetaOf(s, x)[VISITORS := Arr([])] else MetaOf(s, x)
  }

  /** cron_send_emails over distinct objects: every non-empty list is sent
      once, whole and in order, as a grouped notification and then reset to
      []; empty lists send nothing and are not rewritten; nothing else changes. */
  lemma {:induction false} FlushSendsEachListOnce(s: Site, objects: seq<WpObject>)
    requires Distinct(objects) && ListsWellFormed(s, objects)
    ensures var o := Flush(s, objects);
      o.result.Success?
      && o.site.outbox == s.outbox + Digests(s, objects)
      && o.site.options == s.options
      && (forall x :: MetaOf(o.site, x) == FlushedMeta(s, objects, x))
  {
    if objects != [] {
      var init, last := objects[..|objects| - 1], objects[|objects| - 1];
      assert objects == init + [last];
      assert Distinct(init) && ListsWellFormed(s, init);
      assert last !in init;
      FlushSendsEachListOnce(s, init);
      FlushStep(s, init, last);
    }
  }

  /** One step of FlushSendsEachListOnce: flushing one more object, not
      flushed before, extends the digests and resets its list. */
  lemma FlushStep(s: Site, init: seq<WpObject>, last: WpObject)
    requires last !in init
    requires Empty(GetMeta(s, Some(last), VISITORS)) || GetMeta(s, Some(last), VISITORS).Arr?
    requires var p := Flush(s, init);
      p.result.Success?
      && p.site.outbox == s.outbox + Digests(s, init)
      && p.site.options == s.options
      && (forall x :: MetaOf(p.site, x) == FlushedMeta(s, init, x))
    ensures var o := Flush(s, init + [last]);
      o.result.Success?
      && o.site.outbox == s.outbox + Digests(s, init + [last])
      && o.site.options == s.options
      && (forall x :: MetaOf(o.site, x) == FlushedMeta(s, init + [last], x))
  {
    var objects := init + [last];
    var prev := Flush(s, init);
    var o := FlushOne(prev.site, last);
    assert Flush(s, objects) == o by {
      assert objects[..|objects| - 1] == init;
    }
    var data := GetMeta(s, Some(last), VISITORS);
    assert GetMeta(prev.site, Some(last), VISITORS) == data by {
      assert MetaOf(prev.site, last) == FlushedMeta(s, init, last) == MetaOf(s, last);
    }
    assert o.site.outbox == s.outbox + Digests(s, objects) by {
      assert Digests(s, objects) == Digests(s, init) + (if Empty(data) then [] else [Notification(last, data, true)]) by {
        assert objects[..|objects| - 1] == init;
      }
    }
    forall x
      ensures MetaOf(o.site, x) == FlushedMeta(s, objects, x)
    {
      assert x in objects <==> x in init || x == last;
      if x != last {
        assert MetaOf(o.site, x) == MetaOf(prev.site, x);
      }
    }
  }

  // ---------------------------------------------------------------------------
  // The bulk action

  /** filter_handle_bulk_actions on the resolved objects: each is enabled
      (with the schedule the action names) or disabled (its schedule left
      as it was); every other object, and every other meta key, is unchanged. */
  lemma {:induction false} BulkSetsFields(s: Site, action: string, objects: seq<WpObject>)
    ensures var t := BulkAll(s, action, objects);
      t.options == s.options && t.outbox == s.outbox
      && (forall x :: x in objects ==> GetField(t, Some(x), ENABLE) == Bool(IsEnable(action)))
      && (forall x :: x in objects && IsEnable(action) ==> GetField(t, Some(x), SCHEDULE) == Str(ScheduleFor(action)))
      && (forall x, k :: x in objects && k != ENABLE && (IsEnable(action) ==> k != SCHEDULE) ==>
            GetMetaAt(t, x, k) == GetMetaAt(s, x, k))
      && (forall x :: x !in objects ==> MetaOf(t, x) == MetaOf(s, x))
  {
    if objects != [] {
      var init, last := objects[..|objects| - 1], objects[|objects| - 1];
      BulkSetsFields(s, action, init);
      var prev := BulkAll(s, action, init);
      var t := BulkOne(prev, action, last);
      assert BulkAll(s, action, objects) == t;
      assert forall x :: x in objects <==> x in init || x == last;
      forall x, k | x in objects && k != ENABLE && (IsEnable(action) ==> k != SCHEDULE)
        ensures GetMetaAt(t, x, k) == GetMetaAt(s, x, k)
      {
        if x != last {
          assert MetaOf(t, x) == MetaOf(prev, x);
        } else if x !in init {
          assert MetaOf(prev, x) == MetaOf(s, x);
        }
      }
    }
  }

  /** The redirect carries the number of ids that resolved to an object. */
  lemma BulkCountsResolvedIds(s: Site, screenType: string, redirect: Url, action: string, ids: seq<int>, known: set<WpObject>)
    requires IsBulkAction(action)
    requires forall id :: id in ids ==> (if screenType == "post" then Post(id) else Term(id)) in known
    ensures var key := if IsEnable(action) then "enable-vn" else "disable-vn";
      Lookup(Bulk(s, screenType, redirect, action, ids, known).1.query, StrKey(key)) == Some(Str(NatToString(|ids|)))
  {
  }

  /** Resolving one more id appends its object when it resolves. */
  lemma ResolveSnoc(screenType: string, known: set<WpObject>, ids: seq<int>)
    requires ids != []
    ensures Resolve(screenType, known, ids)
      == Resolve(screenType, known, ids[..|ids| - 1])
      + (match ResolveOne(screenType, known, ids[|ids| - 1]) case Some(o) => [o] case None => [])
  {
  }

  /** Dropping the last element of a concatenation drops it from its second part. */
  lemma SnocSplit(a: seq<int>, b: seq<int>)
    requires b != []
    ensures (a + b)[..|a + b| - 1] == a + b[..|b| - 1] && (a + b)[|a + b| - 1] == b[|b| - 1]
  {
    assert (a + b)[..|a + b| - 1] == a + b[..|b| - 1];
  }

  /** A single id resolves to its object, or to nothing. */
  lemma ResolveSingle(screenType: string, known: set<WpObject>, id: int)
    ensures Resolve(screenType, known, [id]) == (match ResolveOne(screenType, known, id) case Some(o) => [o] case None => [])
  {
    assert [id][..0] == [];
  }

  /** array_filter(array_map(...)) keeps the objects in the order of their ids:
      resolving a concatenation resolves each part and concatenates
      (with `ResolveSingle`, this fixes the result and its order). */
  lemma {:induction false} ResolveInOrder(screenType: string, known: set<WpObject>, a: seq<int>, b: seq<int>)
    ensures Resolve(screenType, known, a + b) == Resolve(screenType, known, a) + Resolve(screenType, known, b)
    decreases |b|
  {
    if b == [] {
      assert a + b == a;
    } else {
      var n := |b| - 1;
      var x, y := Resolve(screenType, known, a), Resolve(screenType, known, b[..n]);
      var t := match ResolveOne(screenType, known, b[n]) case Some(o) => [o] case None => [];
      calc {
        Resolve(screenType, known, a + b);
        == { SnocSplit(a, b); ResolveSnoc(screenType, known, a + b); }
        Resolve(screenType, known, a + b[..n]) + t;
        == { ResolveInOrder(screenType, known, a, b[..n]); }
        (x + y) + t;
        == { ResolveSnoc(screenType, known, b); }
        x + Resolve(screenType, known, b);
      }
    }
  }
}
