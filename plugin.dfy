/** The VisitNotifications class of visit-notifications.php: the visit gate,
    the recording of a visit, the digest flush run by cron and the bulk
    enable/disable action, over the state WordPress keeps for the plugin
    (the option store, per-object meta, and the mails sent). Each operation
    is first given as a function on a Site value; the class methods at the
    end run the same steps in place and are proved equal to those functions. */
module Plugin {
  import opened Wrappers
  import opened Php
  import opened Ip
  import opened PluginSettings

  /** Meta key of an object's pending visitor list. */
  const VISITORS := BASE + "visitors"
  /** Option (site scope) or meta key (post scope) of the grace map md5(ip) => expiry. */
  const GRACE_DATA := BASE + "ip_grace_period_data"

  /** The per-object ACF fields (src/ACF/Fields/AllPostOptions.php). */
  const ENABLE := "vn_enable_notifications"    // true_false
  const SCHEDULE := "vn_schedule"              // select: visit, hourly, daily
  const LOGGED_IN := "vn_logged_in"            // select: global, on, off

  /** A post or a term: what get_object resolves a page to. */
  datatype WpObject = Post(id: int) | Term(id: int)

  /** What get_location_and_timezone answers for an address. */
  datatype Geo = Geo(location: string, timezone: string)

  /** The host functions the plugin calls but does not define. */
  datatype Host = Host(
    codec: AddressCodec,             // filter_var(FILTER_VALIDATE_IP), inet_pton, inet_ntop
    md5: string -> string,
    validUrl: string -> bool,        // filter_var(FILTER_VALIDATE_URL)
    locate: string -> Option<Geo>)   // the ipapi.co lookup; None on any error

  /** The settings registry and the functions the plugin runs with. */
  datatype Config = Config(ids: map<string, Field>, wp: WpSanitizers, host: Host)

  /** What one front-end request looks like to the plugin. The WordPress
      query predicates and the resolution in get_object are inputs here. */
  datatype Request = Request(
    now: int,                   // time()
    isAdmin: bool,              // is_admin()
    isSingular: bool,           // is_singular()
    isArchive: bool,            // is_archive()
    resolved: Option<WpObject>, // get_object()
    post: Option<int>,          // get_post(): the global post, if any
    userAgent: Option<string>,  // HTTP_USER_AGENT after sanitize_text_field, None when not sent
    referer: string,            // HTTP_REFERER ?? '' after sanitize_url
    remoteAddr: string,         // REMOTE_ADDR ?? '' after sanitize_text_field
    loggedIn: bool)             // is_user_logged_in()

  /** A call of send_notification_email: the object, the visitor (single)
      or the visitor list (grouped). */
  datatype Notification = Notification(target: WpObject, data: Value, grouped: bool)

  /** The WordPress state the plugin reads and writes. */
  datatype Site = Site(
    options: map<string, Value>,
    meta: map<WpObject, map<string, Value>>,
    outbox: seq<Notification>)

  /** The result of an operation, together with the state it leaves behind:
      a fault does not undo the writes made before it. */
  datatype Outcome<T> = Outcome(result: Result<T, Fault>, site: Site)

  // ---------------------------------------------------------------------------
  // Storage: options, meta and ACF fields

  /** get_option($name, $default) */
  function GetOption(s: Site, name: string, default: Value): Value {
    if name in s.options then s.options[name] else default
  }

  /** $this->settings->get($name) on the site's option store. */
  function Setting(cfg: Config, s: Site, name: string): Result<Value, Fault> {
    Get(cfg.ids, cfg.wp, s.options, name, Bool(false), true)
  }

  function MetaOf(s: Site, o: WpObject): map<string, Value> {
    if o in s.meta then s.meta[o] else map[]
  }

  /** get_meta($object, $name, true): '' for a missing key, null without an object. */
  function GetMeta(s: Site, o: Option<WpObject>, name: string): (r: Value)
    ensures o.None? ==> r == Null
    ensures o.Some? && name !in MetaOf(s, o.value) ==> r == Str("")
    ensures o.Some? && name in MetaOf(s, o.value) ==> r == MetaOf(s, o.value)[name]
  {
    match o
    case None => Null
    case Some(obj) => if name in MetaOf(s, obj) then MetaOf(s, obj)[name] else Str("")
  }

  /** set_meta($object, $name, $value): update_post_meta or update_term_meta; nothing without an object. */
  function WithMeta(s: Site, o: Option<WpObject>, name: string, v: Value): (r: Site)
    ensures o.Some? ==> MetaOf(r, o.value) == MetaOf(s, o.value)[name := v]
    ensures forall x :: o != Some(x) ==> MetaOf(r, x) == MetaOf(s, x)
    ensures r.options == s.options && r.outbox == s.outbox
  {
    match o
    case None => s
    case Some(obj) => s.(meta := s.meta[obj := MetaOf(s, obj)[name := v]])
  }

  /** The default_value ACF loads for a field that has no stored value. */
  function AcfDefault(name: string): Value {
    if name == SCHEDULE then Str("default")
    else if name == LOGGED_IN then Str("global")
    else Null
  }

  /** get_field($name, $object) through ACF, which keeps a field in the
      object's meta under its name: the true_false field reads as a bool,
      the selects as their stored value. False without an object. */
  function GetField(s: Site, o: Option<WpObject>, name: string): (r: Value)
    ensures o.None? ==> r == Bool(false)
    ensures o.Some? && name == ENABLE ==>
      r == Bool(ENABLE in MetaOf(s, o.value) && Truthy(MetaOf(s, o.value)[ENABLE]))
    ensures o.Some? && name != ENABLE && name in MetaOf(s, o.value) ==> r == MetaOf(s, o.value)[name]
  {
    match o
    case None => Bool(false)
    case Some(obj) =>
      var m := MetaOf(s, obj);
      if name == ENABLE then Bool(name in m && Truthy(m[name]))
      else if name in m then m[name] else AcfDefault(name)
  }

  /** What ACF writes to meta for a field value: a true_false as '1' or '0'. */
  function AcfStored(name: string, v: Value): Value {
    if name == ENABLE then Str(if Truthy(v) then "1" else "0") else v
  }

  /** set_field($name, $value, $object) */
  function WithField(s: Site, o: Option<WpObject>, name: string, v: Value): (r: Site)
    ensures o.Some? ==> GetField(r, o, name) == (if name == ENABLE then Bool(Truthy(v)) else v)
    ensures forall x :: o != Some(x) ==> MetaOf(r, x) == MetaOf(s, x)
    ensures o.Some? ==> forall k :: k != name ==> GetMetaAt(r, o.value, k) == GetMetaAt(s, o.value, k)
    ensures r.options == s.options && r.outbox == s.outbox
  {
    WithMeta(s, o, name, AcfStored(name, v))
  }

  /** The meta value under key k, if any. */
  function GetMetaAt(s: Site, o: WpObject, k: string): Option<Value> {
    if k in MetaOf(s, o) then Some(MetaOf(s, o)[k]) else None
  }

  // ---------------------------------------------------------------------------
  // The visit gate (check_to_record_visit)

  /** get_overridable_checkbox: the per-object select wins when set to
      anything but 'global' (true iff it is 'on'), otherwise the global
      checkbox setting, which the bool return type requires to be a bool. */
  function OverridableCheckbox(cfg: Config, s: Site, obj: WpObject, acfName: string, settingName: string): (r: Result<bool, Fault>)
    ensures acfName != ENABLE && acfName in MetaOf(s, obj) && MetaOf(s, obj)[acfName] !in {Null, Str("global")} ==>
      r == Success(MetaOf(s, obj)[acfName] == Str("on"))
    ensures acfName != ENABLE && GetField(s, Some(obj), acfName) in {Null, Str("global")} ==>
      r == (match Setting(cfg, s, settingName)
            case Success(Bool(b)) => Success(b)
            case Success(_) => Failure(NotABool)
            case Failure(e) => Failure(e))
  {
    var acf := GetField(s, Some(obj), acfName);
    if acf != Null && acf != Str("global") then Success(acf == Str("on"))
    else
      var v :- Setting(cfg, s, settingName);
      if v.Bool? then Success(v.b) else Failure(NotABool)
  }

  /** The checks that deny before any setting is read: admin pages, pages
      neither singular nor archive, no object, notifications off for it. */
  predicate EarlyDeny(req: Request, s: Site) {
    req.isAdmin
    || !(req.isSingular || req.isArchive)
    || req.resolved.None?
    || !Truthy(GetField(s, req.resolved, ENABLE))
  }

  /** The crawler test: a user agent whose lower-case form contains "bot". */
  predicate IsBot(userAgent: Option<string>) {
    userAgent.Some? && Contains(ToLower(userAgent.value), "bot")
  }

  /** The array_filter callback `$value > time()`, on the int expiries the plugin writes. */
  predicate Unexpired(v: Value, now: int) {
    v.Int? && v.i > now
  }

  /** array_filter($graceperiod, ...): the entries not yet expired, in order, keys kept. */
  function Prune(e: seq<Entry>, now: int): (r: seq<Entry>)
    ensures forall x :: x in r <==> x in e && Unexpired(x.val, now)
    ensures |r| <= |e|
    ensures |r| == |e| <==> forall x :: x in e ==> Unexpired(x.val, now)
  {
    if e == [] then []
    else
      var init, last := e[..|e| - 1], e[|e| - 1];
      assert e == init + [last];
      Prune(init, now) + (if Unexpired(last.val, now) then [last] else [])
  }

  /** Pruning one more entry appends it when it is unexpired. */
  lemma PruneSnoc(e: seq<Entry>, i: int, now: int)
    requires 0 <= i < |e|
    ensures Prune(e[..i + 1], now) == Prune(e[..i], now) + (if Unexpired(e[i].val, now) then [e[i]] else [])
  {
    assert e[..i + 1][..i] == e[..i];
  }

  /** The global post as an object, where the 'post' grace scope is read from. */
  function GlobalPost(req: Request): Option<WpObject> {
    if req.post.Some? then Some(Post(req.post.value)) else None
  }

  /** The grace map as the gate reads it: the site option (default []) or the
      global post's meta `?: []`. */
  function GraceRead(s: Site, ctx: Value, req: Request): (r: Value)
    ensures ctx == Str("site") && GRACE_DATA !in s.options ==> r == Arr([])
    ensures ctx == Str("site") && GRACE_DATA in s.options ==> r == s.options[GRACE_DATA]
    ensures ctx != Str("site") && req.post.None? ==> r == Arr([])
    ensures ctx != Str("site") && req.post.Some? ==> r == OrEmptyArray(GetMeta(s, Some(Post(req.post.value)), GRACE_DATA))
    ensures ctx != Str("site") ==> r == Arr([]) || Truthy(r)
  {
    if ctx == Str("site") then GetOption(s, GRACE_DATA, Arr([]))
    else OrEmptyArray(GetMeta(s, GlobalPost(req), GRACE_DATA))
  }

  /** Writing the pruned grace map back where it was read from. */
  function GraceWriteBack(s: Site, ctx: Value, req: Request, v: Value): (r: Site)
    ensures OnlyGraceChanged(s, r)
    ensures ctx == Str("site") ==> GetOption(r, GRACE_DATA, Arr([])) == v
    ensures ctx != Str("site") && req.post.Some? ==> GetMeta(r, GlobalPost(req), GRACE_DATA) == v
    ensures ctx != Str("site") && req.post.None? ==> r == s
  {
    if ctx == Str("site") then s.(options := s.options[GRACE_DATA := v])
    else WithMeta(s, GlobalPost(req), GRACE_DATA, v)
  }

  /** The grace-period step of the gate: true lets the visit through. */
  function GraceCheck(cfg: Config, req: Request, s: Site): (o: Outcome<bool>)
    ensures OnlyGraceChanged(s, o.site)
    ensures Setting(cfg, s, "ip_grace_period").Failure? ==>
      o == Outcome(Failure(Setting(cfg, s, "ip_grace_period").error), s)
    ensures Setting(cfg, s, "ip_grace_period").Success? && !Truthy(Setting(cfg, s, "ip_grace_period").value) ==>
      o == Outcome(Success(true), s)
    ensures (Setting(cfg, s, "ip_grace_period").Success? && Truthy(Setting(cfg, s, "ip_grace_period").value)
             && cfg.host.codec.parse(req.remoteAddr).None?) ==>
      o == Outcome(Failure(InvalidIpAddress), s)
    ensures (Setting(cfg, s, "ip_grace_period").Success? && Truthy(Setting(cfg, s, "ip_grace_period").value)
             && cfg.host.codec.parse(req.remoteAddr).Some?
             && Setting(cfg, s, "ip_grace_period_context").Success?
             && Setting(cfg, s, "ip_grace_period_context").value !in {Str("site"), Str("post")}) ==>
      o == Outcome(Failure(UndefinedGracePeriod), s)
    ensures (Setting(cfg, s, "ip_grace_period").Success? && Truthy(Setting(cfg, s, "ip_grace_period").value)
             && cfg.host.codec.parse(req.remoteAddr).Some?
             && Setting(cfg, s, "ip_grace_period_context").Success?
             && Setting(cfg, s, "ip_grace_period_context").value in {Str("site"), Str("post")}
             && !GraceRead(s, Setting(cfg, s, "ip_grace_period_context").value, req).Arr?) ==>
      o == Outcome(Failure(NotAnArray), s)
  {
    match Setting(cfg, s, "ip_grace_period")
    case Failure(e) => Outcome(Failure(e), s)
    case Success(on) =>
      if !Truthy(on) then Outcome(Success(true), s)
      else match AnonymizeIpAddress(cfg.host.codec, req.remoteAddr)
      case Failure(e) => Outcome(Failure(e), s)
      case Success(anon) =>
        var key := StrKey(cfg.host.md5(anon));
        match Setting(cfg, s, "ip_grace_period_context")
        case Failure(e) => Outcome(Failure(e), s)
        case Success(ctx) =>
          if ctx != Str("site") && ctx != Str("post") then Outcome(Failure(UndefinedGracePeriod), s)
          else
            var stored := GraceRead(s, ctx, req);
            if !stored.Arr? then Outcome(Failure(NotAnArray), s)
            else
              var kept := Prune(stored.entries, req.now);
              var s' := if |kept| == |stored.entries| then s else GraceWriteBack(s, ctx, req, Arr(kept));
              Outcome(Success(!HasKey(kept, key)), s')
  }

  /** The only thing the gate may write: the grace map. */
  ghost predicate OnlyGraceChanged(s: Site, t: Site) {
    t.outbox == s.outbox
    && (forall k :: k != GRACE_DATA ==> OptionAt(t, k) == OptionAt(s, k))
    && (forall x, k :: k != GRACE_DATA ==> GetMetaAt(t, x, k) == GetMetaAt(s, x, k))
  }

  function OptionAt(s: Site, k: string): Option<Value> {
    if k in s.options then Some(s.options[k]) else None
  }

  /** check_to_record_visit: the deny checks in source order. */
  function Gate(cfg: Config, req: Request, s: Site): (o: Outcome<bool>)
    ensures OnlyGraceChanged(s, o.site)
    ensures EarlyDeny(req, s) || IsBot(req.userAgent) ==> o == Outcome(Success(false), s)
    ensures o.result == Success(true) ==>
      GraceCheck(cfg, req, s) == o && !EarlyDeny(req, s) && !IsBot(req.userAgent)
      && (req.loggedIn ==> OverridableCheckbox(cfg, s, req.resolved.value, LOGGED_IN, "enable_logged_in_users") == Success(true))
    ensures (!EarlyDeny(req, s) && !IsBot(req.userAgent) && req.loggedIn
             && OverridableCheckbox(cfg, s, req.resolved.value, LOGGED_IN, "enable_logged_in_users") == Success(false)) ==>
      o == Outcome(Success(false), s)
    ensures (!EarlyDeny(req, s) && !IsBot(req.userAgent)
             && OverridableCheckbox(cfg, s, req.resolved.value, LOGGED_IN, "enable_logged_in_users").Failure?) ==>
      o == Outcome(Failure(OverridableCheckbox(cfg, s, req.resolved.value, LOGGED_IN, "enable_logged_in_users").error), s)
    ensures (!EarlyDeny(req, s) && !IsBot(req.userAgent)
             && OverridableCheckbox(cfg, s, req.resolved.value, LOGGED_IN, "enable_logged_in_users").Success?
             && (req.loggedIn ==> OverridableCheckbox(cfg, s, req.resolved.value, LOGGED_IN, "enable_logged_in_users").value)) ==>
      o == GraceCheck(cfg, req, s)
  {
    if EarlyDeny(req, s) then Outcome(Success(false), s)
    else if IsBot(req.userAgent) then Outcome(Success(false), s)
    else match OverridableCheckbox(cfg, s, req.resolved.value, LOGGED_IN, "enable_logged_in_users")
      case Failure(e) => Outcome(Failure(e), s)
      case Success(send) =>
        if req.loggedIn && !send then Outcome(Success(false), s)
        else GraceCheck(cfg, req, s)
  }

  // ---------------------------------------------------------------------------
  // Recording a visit (record_visit)

  /** The address the visit is stored and hashed under: anonymised when it
      is an address, the raw text otherwise. */
  function VisitorIp(host: Host, addr: string): (r: string)
    ensures host.codec.parse(addr).Some? ==> r == AnonymizeIpAddress(host.codec, addr).value
    ensures host.codec.parse(addr).None? ==> r == addr
  {
    match AnonymizeIpAddress(host.codec, addr)
    case Success(anon) => anon
    case Failure(_) => addr
  }

  /** The visitor record: time, user agent, referer, and for a valid address
      the anonymised address and whatever location it resolves to. */
  function VisitorValue(host: Host, req: Request): (r: Value)
    ensures r.Arr? && 3 <= |r.entries| <= 6
    ensures r.entries[0] == Entry(StrKey("time"), Int(req.now))
    ensures r.entries[1] == Entry(StrKey("user_agent"), Str(req.userAgent.GetOr("unknown")))
    ensures r.entries[2] == Entry(StrKey("referer"), Str(if host.validUrl(req.referer) then req.referer else "unknown"))
    ensures |r.entries| > 3 <==> host.codec.parse(req.remoteAddr).Some?
    ensures |r.entries| > 3 ==> r.entries[3] == Entry(StrKey("ip_addr"), Str(AnonymizeIpAddress(host.codec, req.remoteAddr).value))
    ensures |r.entries| > 4 <==> host.codec.parse(req.remoteAddr).Some? && host.locate(VisitorIp(host, req.remoteAddr)).Some?
    ensures |r.entries| > 4 ==> var g := host.locate(VisitorIp(host, req.remoteAddr)).value;
      r.entries[4..] == [Entry(StrKey("location"), Str(g.location)), Entry(StrKey("timezone"), Str(g.timezone))]
  {
    var base := [
      Entry(StrKey("time"), Int(req.now)),
      Entry(StrKey("user_agent"), Str(req.userAgent.GetOr("unknown"))),
      Entry(StrKey("referer"), Str(if host.validUrl(req.referer) then req.referer else "unknown"))];
    if host.codec.parse(req.remoteAddr).None? then Arr(base)
    else
      var ip := VisitorIp(host, req.remoteAddr);
      var withIp := base + [Entry(StrKey("ip_addr"), Str(ip))];
      match host.locate(ip)
      case None => Arr(withIp)
      case Some(g) => Arr(withIp + [Entry(StrKey("location"), Str(g.location)), Entry(StrKey("timezone"), Str(g.timezone))])
  }

  /** A value PHP lets `$a[$k] = ...` write into: an array, or null/false, which become []. */
  function Writable(v: Value): Option<seq<Entry>> {
    match v
    case Arr(e) => Some(e)
    case Null => Some([])
    case Bool(false) => Some([])
    case _ => None
  }

  /** The new expiry time() + duration, which must be an int. */
  function Expiry(cfg: Config, s: Site, now: int): (r: Result<int, Fault>)
    ensures r.Success? <==> Setting(cfg, s, "ip_grace_period_duration").Success? && Setting(cfg, s, "ip_grace_period_duration").value.Int?
    ensures r.Success? ==> r.value == now + Setting(cfg, s, "ip_grace_period_duration").value.i
  {
    var d :- Setting(cfg, s, "ip_grace_period_duration");
    if d.Int? then Success(now + d.i) else Failure(NotAnInt)
  }

  /** The grace map with `md5(ip) => expiry` written into it. */
  function GraceEntry(cfg: Config, s: Site, now: int, current: Value, ip: string): (r: Result<Value, Fault>)
    ensures r.Success? <==> Expiry(cfg, s, now).Success? && Writable(current).Some?
    ensures r.Success? ==>
      r.value.Arr?
      && Lookup(r.value.entries, StrKey(cfg.host.md5(ip))) == Some(Int(Expiry(cfg, s, now).value))
      && forall k :: k != StrKey(cfg.host.md5(ip)) ==> Lookup(r.value.entries, k) == Lookup(Writable(current).value, k)
  {
    var expiry :- Expiry(cfg, s, now);
    match Writable(current)
    case None => Failure(NotAnArray)
    case Some(e) => Success(Arr(Assign(e, StrKey(cfg.host.md5(ip)), Int(expiry))))
  }

  /** The tail of record_visit: remember the address in the configured scope. */
  function GraceRecord(cfg: Config, now: int, s: Site, obj: WpObject, ip: string): (o: Outcome<()>)
    ensures o.site.outbox == s.outbox
    ensures forall x :: GetMeta(o.site, Some(x), VISITORS) == GetMeta(s, Some(x), VISITORS)
    ensures Setting(cfg, s, "ip_grace_period").Failure? ==>
      o == Outcome(Failure(Setting(cfg, s, "ip_grace_period").error), s)
    ensures Setting(cfg, s, "ip_grace_period").Success? && !Truthy(Setting(cfg, s, "ip_grace_period").value) ==>
      o == Outcome(Success(()), s)
    ensures (Setting(cfg, s, "ip_grace_period").Success? && Truthy(Setting(cfg, s, "ip_grace_period").value)
             && Setting(cfg, s, "ip_grace_period_context").Success?
             && Setting(cfg, s, "ip_grace_period_context").value !in {Str("site"), Str("post")}) ==>
      o == Outcome(Success(()), s)
  {
    match Setting(cfg, s, "ip_grace_period")
    case Failure(e) => Outcome(Failure(e), s)
    case Success(on) =>
      if !Truthy(on) then Outcome(Success(()), s)
      else match Setting(cfg, s, "ip_grace_period_context")
      case Failure(e) => Outcome(Failure(e), s)
      case Success(ctx) =>
        if ctx == Str("site") then
          match GraceEntry(cfg, s, now, GetOption(s, GRACE_DATA, Arr([])), ip)
          case Failure(e) => Outcome(Failure(e), s)
          case Success(v) => Outcome(Success(()), s.(options := s.options[GRACE_DATA := v]))
        else if ctx == Str("post") then
          match GraceEntry(cfg, s, now, OrEmptyArray(GetMeta(s, Some(obj), GRACE_DATA)), ip)
          case Failure(e) => Outcome(Failure(e), s)
          case Success(v) => Outcome(Success(()), WithMeta(s, Some(obj), GRACE_DATA, v))
        else Outcome(Success(()), s)
  }

  /** The first half of record_visit: mail the visitor at once on the
      'visit' schedule, otherwise queue it at the end of the object's
      visitor list (`?: []`, and `[] =` refuses a non-array). */
  function Dispatch(host: Host, req: Request, s: Site, obj: WpObject): (o: Outcome<()>)
    ensures o.site.options == s.options
    ensures GetField(s, Some(obj), SCHEDULE) == Str("visit") ==>
      o == Outcome(Success(()), s.(outbox := s.outbox + [Notification(obj, VisitorValue(host, req), false)]))
    ensures GetField(s, Some(obj), SCHEDULE) != Str("visit") ==>
      o.site.outbox == s.outbox
      && var list := OrEmptyArray(GetMeta(s, Some(obj), VISITORS));
      if list.Arr? then
        var after := GetMeta(o.site, Some(obj), VISITORS);
        o.result.Success?
        && after.Arr? && |after.entries| == |list.entries| + 1
        && after.entries[..|list.entries|] == list.entries
        && after.entries[|list.entries|].val == VisitorValue(host, req)
        && MetaOf(o.site, obj) == MetaOf(s, obj)[VISITORS := after]
        && (forall x :: x != obj ==> MetaOf(o.site, x) == MetaOf(s, x))
      else o == Outcome(Failure(NotAnArray), s)
  {
    var visitor := VisitorValue(host, req);
    if GetField(s, Some(obj), SCHEDULE) == Str("visit") then
      Outcome(Success(()), s.(outbox := s.outbox + [Notification(obj, visitor, false)]))
    else
      var list := OrEmptyArray(GetMeta(s, Some(obj), VISITORS));
      if !list.Arr? then Outcome(Failure(NotAnArray), s)
      else Outcome(Success(()), WithMeta(s, Some(obj), VISITORS, Arr(Push(list.entries, visitor))))
  }

  /** record_visit: dispatch the visitor, then remember its address. The
      grace step leaves the mails and the visitor lists as dispatch left them. */
  function Record(cfg: Config, req: Request, s: Site, target: Option<WpObject>): (o: Outcome<()>)
    ensures target.None? ==> o == Outcome(Success(()), s)
    ensures target.Some? ==>
      var d := Dispatch(cfg.host, req, s, target.value);
      o.site.outbox == d.site.outbox
      && GetMeta(o.site, target, VISITORS) == GetMeta(d.site, target, VISITORS)
      && (d.result.Failure? ==> o == d)
      && (d.result.Success? ==> o == GraceRecord(cfg, req.now, d.site, target.value, VisitorIp(cfg.host, req.remoteAddr)))
  {
    match target
    case None => Outcome(Success(()), s)
    case Some(obj) =>
      var d := Dispatch(cfg.host, req, s, obj);
      if d.result.Failure? then d
      else GraceRecord(cfg, req.now, d.site, obj, VisitorIp(cfg.host, req.remoteAddr))
  }

  /** action_wp: gate the request, then record it against its object. */
  function Visit(cfg: Config, req: Request, s: Site): (o: Outcome<()>)
    ensures Gate(cfg, req, s).result == Success(false) ==> o == Outcome(Success(()), Gate(cfg, req, s).site)
    ensures EarlyDeny(req, s) || IsBot(req.userAgent) ==> o == Outcome(Success(()), s)
    ensures Gate(cfg, req, s).result == Success(true) ==> o == Record(cfg, req, Gate(cfg, req, s).site, req.resolved)
    ensures Gate(cfg, req, s).result.Failure? ==> o == Outcome(Failure(Gate(cfg, req, s).result.error), Gate(cfg, req, s).site)
  {
    var g := Gate(cfg, req, s);
    match g.result
    case Failure(e) => Outcome(Failure(e), g.site)
    case Success(go) => if go then Record(cfg, req, g.site, req.resolved) else Outcome(Success(()), g.site)
  }

  // ---------------------------------------------------------------------------
  // The digest flush (cron_send_emails)

  /** What the cron query selects: enabled ('1') and on this schedule. */
  predicate Scheduled(s: Site, o: WpObject, frequency: string) {
    GetMetaAt(s, o, ENABLE) == Some(Str("1")) && GetMetaAt(s, o, SCHEDULE) == Some(Str(frequency))
  }

  predicate Distinct(objects: seq<WpObject>) {
    forall i, j :: 0 <= i < j < |objects| ==> objects[i] != objects[j]
  }

  /** One iteration of the flush: skip an empty list, otherwise send it as
      one grouped notification (the `array` parameter type refuses anything
      else) and reset it to [], whatever the mailer answered. */
  function FlushOne(s: Site, obj: WpObject): (o: Outcome<()>)
    ensures Empty(GetMeta(s, Some(obj), VISITORS)) ==> o == Outcome(Success(()), s)
    ensures !Empty(GetMeta(s, Some(obj), VISITORS)) && !GetMeta(s, Some(obj), VISITORS).Arr? ==>
      o == Outcome(Failure(NotAnArray), s)
    ensures var data := GetMeta(s, Some(obj), VISITORS);
      !Empty(data) && data.Arr? ==>
        o.result.Success? && o.site.options == s.options
        && o.site.outbox == s.outbox + [Notification(obj, data, true)]
        && MetaOf(o.site, obj) == MetaOf(s, obj)[VISITORS := Arr([])]
        && (forall x :: x != obj ==> MetaOf(o.site, x) == MetaOf(s, x))
  {
    var data := GetMeta(s, Some(obj), VISITORS);
    if Empty(data) then Outcome(Success(()), s)
    else if !data.Arr? then Outcome(Failure(NotAnArray), s)
    else Outcome(Success(()), WithMeta(s.(outbox := s.outbox + [Notification(obj, data, true)]), Some(obj), VISITORS, Arr([])))
  }

  /** The flush over the queried objects, in order, stopping at a fault. */
  function Flush(s: Site, objects: seq<WpObject>): (o: Outcome<()>)
    ensures o.site.options == s.options
    ensures |s.outbox| <= |o.site.outbox| <= |s.outbox| + |objects| && o.site.outbox[..|s.outbox|] == s.outbox
    ensures forall x :: x !in objects ==> MetaOf(o.site, x) == MetaOf(s, x)
  {
    if objects == [] then Outcome(Success(()), s)
    else
      var prev := Flush(s, objects[..|objects| - 1]);
      if prev.result.Failure? then prev else FlushOne(prev.site, objects[|objects| - 1])
  }

  /** A fault ends the flush: the objects after it are not visited. */
  lemma {:induction false} FlushStopsAtFault(s: Site, objects: seq<WpObject>, n: nat)
    requires n <= |objects| && Flush(s, objects[..n]).result.Failure?
    ensures Flush(s, objects) == Flush(s, objects[..n])
    decreases |objects|
  {
    if n < |objects| {
      var init := objects[..|objects| - 1];
      assert init[..n] == objects[..n];
      FlushStopsAtFault(s, init, n);
    } else {
      assert objects[..n] == objects;
    }
  }

  // ---------------------------------------------------------------------------
  // Bulk enable/disable (filter_handle_bulk_actions)

  /** A redirect URL: everything before the query, and the query arguments. */
  datatype Url = Url(base: string, query: seq<Entry>)

  /** add_query_arg($key, $value, $url): set or replace one argument. */
  function AddQueryArg(key: string, value: string, url: Url): Url {
    url.(query := Assign(url.query, StrKey(key), Str(value)))
  }

  predicate IsEnable(action: string) {
    StartsWith(action, "enable-vn")
  }

  predicate IsBulkAction(action: string) {
    IsEnable(action) || action == "disable-vn"
  }

  /** get_post($id) on the 'post' screen, get_term_by('ID', $id, <screen taxonomy>)
      elsewhere; `known` holds the objects that exist. */
  function ResolveOne(screenType: string, known: set<WpObject>, id: int): Option<WpObject> {
    var o := if screenType == "post" then Post(id) else Term(id);
    if o in known then Some(o) else None
  }

  /** array_filter(array_map(..., $ids)): the ids that resolve, in order. */
  function Resolve(screenType: string, known: set<WpObject>, ids: seq<int>): (r: seq<WpObject>)
    ensures |r| <= |ids|
    ensures forall o :: o in r <==> o in known && o.Post? == (screenType == "post") && o.id in ids
    ensures |r| == |ids| <==> forall id :: id in ids ==> ResolveOne(screenType, known, id).Some?
  {
    if ids == [] then []
    else
      var init, last := ids[..|ids| - 1], ids[|ids| - 1];
      Resolve(screenType, known, init)
      + (match ResolveOne(screenType, known, last) case Some(o) => [o] case None => [])
  }

  /** The schedule an enabling action sets. */
  function ScheduleFor(action: string): string {
    if action == "enable-vn-visit" then "visit" else "hourly"
  }

  /** One iteration of the bulk loop: enable or disable one object, and
      give an enabled one its schedule. */
  function BulkOne(s: Site, action: string, obj: WpObject): (t: Site)
    ensures t.options == s.options && t.outbox == s.outbox
    ensures GetField(t, Some(obj), ENABLE) == Bool(IsEnable(action))
    ensures IsEnable(action) ==> GetField(t, Some(obj), SCHEDULE) == Str(ScheduleFor(action))
    ensures forall k :: k != ENABLE && (IsEnable(action) ==> k != SCHEDULE) ==> GetMetaAt(t, obj, k) == GetMetaAt(s, obj, k)
    ensures forall x :: x != obj ==> MetaOf(t, x) == MetaOf(s, x)
  {
    var s1 := WithField(s, Some(obj), ENABLE, Bool(IsEnable(action)));
    if IsEnable(action) then WithField(s1, Some(obj), SCHEDULE, Str(ScheduleFor(action)))
    else s1
  }

  function BulkAll(s: Site, action: string, objects: seq<WpObject>): (t: Site)
    ensures t.options == s.options && t.outbox == s.outbox
    ensures forall x :: x !in objects ==> MetaOf(t, x) == MetaOf(s, x)
  {
    if objects == [] then s
    else BulkOne(BulkAll(s, action, objects[..|objects| - 1]), action, objects[|objects| - 1])
  }

  /** filter_handle_bulk_actions: the new state and the redirect URL. */
  function Bulk(s: Site, screenType: string, redirect: Url, action: string, ids: seq<int>, known: set<WpObject>): (r: (Site, Url))
    ensures !IsBulkAction(action) ==> r == (s, redirect)
    ensures IsBulkAction(action) ==> r.0 == BulkAll(s, action, Resolve(screenType, known, ids))
    ensures IsBulkAction(action) ==>
      var key := if IsEnable(action) then "enable-vn" else "disable-vn";
      Lookup(r.1.query, StrKey(key)) == Some(Str(NatToString(|Resolve(screenType, known, ids)|)))
      && (forall k :: k != StrKey(key) ==> Lookup(r.1.query, k) == Lookup(redirect.query, k))
      && r.1.base == redirect.base
  {
    if !IsBulkAction(action) then (s, redirect)
    else
      var objects := Resolve(screenType, known, ids);
      (BulkAll(s, action, objects),
       AddQueryArg(if IsEnable(action) then "enable-vn" else "disable-vn", NatToString(|objects|), redirect))
  }

  // ---------------------------------------------------------------------------
  // The plugin object

  class VisitNotifications {
    const settings: Settings
    const host: Host
    /** The WordPress state: the option store, post and term meta, mails sent. */
    var options: map<string, Value>
    var meta: map<WpObject, map<string, Value>>
    var outbox: seq<Notification>

    constructor (settings: Settings, host: Host, site: Site)
      ensures this.settings == settings && this.host == host && State() == site
    {
      this.settings := settings;
      this.host := host;
      options := site.options;
      meta := site.meta;
      outbox := site.outbox;
    }

    function State(): Site
      reads this
    {
      Site(options, meta, outbox)
    }

    function Cfg(): Config
      reads settings
    {
      Config(settings.settingsIds, settings.wp, host)
    }

    /** set_meta */
    method SetMeta(o: Option<WpObject>, name: string, v: Value)
      modifies this
      ensures State() == WithMeta(old(State()), o, name, v)
    {
      if o.Some? {
        meta := meta[o.value := MetaOf(State(), o.value)[name := v]];
      }
    }

    /** set_field */
    method SetField(o: Option<WpObject>, name: string, v: Value)
      modifies this
      ensures State() == WithField(old(State()), o, name, v)
    {
      SetMeta(o, name, AcfStored(name, v));
    }

    /** check_to_record_visit */
    method CheckToRecordVisit(req: Request) returns (r: Result<bool, Fault>)
      modifies this
      ensures Outcome(r, State()) == Gate(old(Cfg()), req, old(State()))
    {
      if req.isAdmin {
        return Success(false);
      }
      if !(req.isSingular || req.isArchive) {
        return Success(false);
      }
      if req.resolved.None? {
        return Success(false);
      }
      var target := req.resolved.value;
      if !Truthy(GetField(State(), req.resolved, ENABLE)) {
        return Success(false);
      }
      if req.userAgent.Some? && Contains(ToLower(req.userAgent.value), "bot") {
        return Success(false);
      }
      var sendIfLoggedIn := OverridableCheckbox(Cfg(), State(), target, LOGGED_IN, "enable_logged_in_users");
      if sendIfLoggedIn.Failure? {
        return Failure(sendIfLoggedIn.error);
      }
      if req.loggedIn && !sendIfLoggedIn.value {
        return Success(false);
      }
      r := CheckGrace(req);
    }

    /** The grace-period block of check_to_record_visit. */
    method CheckGrace(req: Request) returns (r: Result<bool, Fault>)
      modifies this
      ensures Outcome(r, State()) == GraceCheck(old(Cfg()), req, old(State()))
    {
      var on := Setting(Cfg(), State(), "ip_grace_period");
      if on.Failure? {
        return Failure(on.error);
      }
      if !Truthy(on.value) {
        return Success(true);
      }
      var anon := AnonymizeIpAddress(host.codec, req.remoteAddr);
      if anon.Failure? {
        return Failure(anon.error);
      }
      var key := StrKey(host.md5(anon.value));
      var ctx := Setting(Cfg(), State(), "ip_grace_period_context");
      if ctx.Failure? {
        return Failure(ctx.error);
      }
      if ctx.value != Str("site") && ctx.value != Str("post") {
        return Failure(UndefinedGracePeriod);
      }
      var graceperiod := GraceRead(State(), ctx.value, req);
      if !graceperiod.Arr? {
        return Failure(NotAnArray);
      }
      // 1) drop the expired graces
      var entries := graceperiod.entries;
      var kept := PruneExpired(entries, req.now);
      // 2) write the map back when its size changed
      if |kept| != |entries| {
        if ctx.value == Str("site") {
          options := options[GRACE_DATA := Arr(kept)];
        } else {
          SetMeta(GlobalPost(req), GRACE_DATA, Arr(kept));
        }
      }
      // 3) a graced address is denied
      r := Success(!HasKey(kept, key));
    }

    /** The loop of check_to_record_visit that keeps the unexpired graces. */
    static method PruneExpired(entries: seq<Entry>, now: int) returns (kept: seq<Entry>)
      ensures kept == Prune(entries, now)
    {
      kept := [];
      for i := 0 to |entries|
        invariant kept == Prune(entries[..i], now)
      {
        PruneSnoc(entries, i, now);
        if Unexpired(entries[i].val, now) {
          kept := kept + [entries[i]];
        }
      }
      assert entries[..|entries|] == entries;
    }

    /** record_visit */
    method RecordVisit(req: Request, target: Option<WpObject>) returns (r: Result<(), Fault>)
      modifies this
      ensures Outcome(r, State()) == Record(old(Cfg()), req, old(State()), target)
    {
      if target.None? {
        return Success(());
      }
      var obj := target.value;
      var schedule := GetField(State(), target, SCHEDULE);
      var visitor := VisitorValue(host, req);
      if schedule == Str("visit") {
        outbox := outbox + [Notification(obj, visitor, false)];
      } else {
        var visitors := OrEmptyArray(GetMeta(State(), target, VISITORS));
        if !visitors.Arr? {
          return Failure(NotAnArray);
        }
        SetMeta(target, VISITORS, Arr(Push(visitors.entries, visitor)));
      }
      r := RecordGrace(req.now, obj, VisitorIp(host, req.remoteAddr));
    }

    /** The grace-period block of record_visit. */
    method RecordGrace(now: int, obj: WpObject, ip: string) returns (r: Result<(), Fault>)
      modifies this
      ensures Outcome(r, State()) == GraceRecord(old(Cfg()), now, old(State()), obj, ip)
    {
      var on := Setting(Cfg(), State(), "ip_grace_period");
      if on.Failure? {
        return Failure(on.error);
      }
      if !Truthy(on.value) {
        return Success(());
      }
      var ctx := Setting(Cfg(), State(), "ip_grace_period_context");
      if ctx.Failure? {
        return Failure(ctx.error);
      }
      if ctx.value == Str("site") {
        var graceperiod := GraceEntry(Cfg(), State(), now, GetOption(State(), GRACE_DATA, Arr([])), ip);
        if graceperiod.Failure? {
          return Failure(graceperiod.error);
        }
        options := options[GRACE_DATA := graceperiod.value];
      } else if ctx.value == Str("post") {
        var graceperiod := GraceEntry(Cfg(), State(), now, OrEmptyArray(GetMeta(State(), Some(obj), GRACE_DATA)), ip);
        if graceperiod.Failure? {
          return Failure(graceperiod.error);
        }
        SetMeta(Some(obj), GRACE_DATA, graceperiod.value);
      }
      r := Success(());
    }

    /** action_wp */
    method ActionWp(req: Request) returns (r: Result<(), Fault>)
      modifies this
      ensures Outcome(r, State()) == Visit(old(Cfg()), req, old(State()))
    {
      var go := CheckToRecordVisit(req);
      if go.Failure? {
        return Failure(go.error);
      }
      if !go.value {
        return Success(());
      }
      r := RecordVisit(req, req.resolved);
    }

    /** cron_send_emails($frequency); `objects` is what the meta query
        returned: distinct objects, each enabled and on that schedule. */
    method CronSendEmails(frequency: string, objects: seq<WpObject>) returns (r: Result<(), Fault>)
      requires Distinct(objects)
      requires forall o :: o in objects ==> Scheduled(State(), o, frequency)
      modifies this
      ensures Outcome(r, State()) == Flush(old(State()), objects)
    {
      for i := 0 to |objects|
        invariant Outcome(Success(()), State()) == Flush(old(State()), objects[..i])
      {
        assert objects[..i + 1][..i] == objects[..i];
        var target := objects[i];
        ghost var before := State();
        assert Flush(old(State()), objects[..i + 1]) == FlushOne(before, target);
        var data := GetMeta(State(), Some(target), VISITORS);
        if Empty(data) {
          continue;
        }
        if !data.Arr? {
          FlushStopsAtFault(old(State()), objects, i + 1);
          return Failure(NotAnArray);
        }
        outbox := outbox + [Notification(target, data, true)];
        SetMeta(Some(target), VISITORS, Arr([]));
        assert State() == FlushOne(before, target).site;
      }
      assert objects[..|objects|] == objects;
      r := Success(());
    }

    /** filter_handle_bulk_actions($screen_type, $redirect_url, $action, $ids) */
    method FilterHandleBulkActions(screenType: string, redirect: Url, action: string, ids: seq<int>, known: set<WpObject>)
      returns (url: Url)
      modifies this
      ensures (State(), url) == Bulk(old(State()), screenType, redirect, action, ids, known)
    {
      url := redirect;
      if IsBulkAction(action) {
        var objects := Resolve(screenType, known, ids);
        for i := 0 to |objects|
          invariant State() == BulkAll(old(State()), action, objects[..i])
        {
          assert objects[..i + 1][..i] == objects[..i];
          var target := objects[i];
          SetField(Some(target), ENABLE, Bool(IsEnable(action)));
          if !IsEnable(action) {
            continue;
          }
          SetField(Some(target), SCHEDULE, Str(ScheduleFor(action)));
        }
        assert objects[..|objects|] == objects;
        url := AddQueryArg(if IsEnable(action) then "enable-vn" else "disable-vn", NatToString(|objects|), url);
      }
    }
  }
}
