/** `ProductVisitMetadataBuilder`: derives the metadata of one anonymous product
    view from the request (client address, user agent, referer) and from what
    the user-agent parser reports. */
module VisitMetadata {
  import opened Wrappers
  import opened Text
  import opened Json

  /** The parts of an inbound request the builder reads: the `User-Agent` and
      `Referer` headers, `HTTP_X_FORWARDED_FOR` and `REMOTE_ADDR`. */
  datatype Request = Request(
    userAgent: Option<string>,
    referer: Option<string>,
    forwardedFor: Option<string>,
    remoteAddr: Option<string>)

  /** What the user-agent parser reports for one user-agent string. */
  datatype UserAgent = UserAgent(
    device: string,
    os: string,
    browser: string,
    isMobile: bool,
    isTablet: bool,
    isPc: bool,
    isBot: bool)

  datatype DeviceType = Mobile | Tablet | Pc | Bot | Unknown {

    /** The name stored under `device_type`. */
    function Name(): (s: string)
      ensures s in DeviceTypeNames
    {
      match this
      case Mobile => "mobile"
      case Tablet => "tablet"
      case Pc => "pc"
      case Bot => "bot"
      case Unknown => "unknown"
    }

    /** Position in the precedence order mobile, tablet, pc, bot, unknown. */
    function Rank(): nat {
      match this
      case Mobile => 0
      case Tablet => 1
      case Pc => 2
      case Bot => 3
      case Unknown => 4
    }
  }

  const DeviceTypeNames: set<string> := {"mobile", "tablet", "pc", "bot", "unknown"}

  /** The parser flag that stands for device type `t` is set (no flag stands for unknown). */
  predicate Flagged(ua: UserAgent, t: DeviceType) {
    match t
    case Mobile => ua.isMobile
    case Tablet => ua.isTablet
    case Pc => ua.isPc
    case Bot => ua.isBot
    case Unknown => false
  }

  /** `_get_device_type`: the highest-ranked device type whose flag is set, or
      unknown when none is. Several flags may be set at once; precedence
      decides. */
  function GetDeviceType(ua: UserAgent): (t: DeviceType)
    ensures t != Unknown ==> Flagged(ua, t)
    ensures forall u: DeviceType :: u.Rank() < t.Rank() ==> !Flagged(ua, u)
  {
    if ua.isMobile then Mobile
    else if ua.isTablet then Tablet
    else if ua.isPc then Pc
    else if ua.isBot then Bot
    else Unknown
  }

  /** `_get_ip`: with a non-empty forwarded-for header, its first
      comma-separated entry with surrounding whitespace removed; otherwise the
      remote address, which may itself be absent. */
  function GetIp(r: Request): (ip: Option<string>)
    ensures r.forwardedFor.None? || r.forwardedFor == Some("") ==> ip == r.remoteAddr
    ensures r.forwardedFor.Some? && r.forwardedFor.value != "" ==> ip.Some? && Trimmed(ip.value) && ',' !in ip.value
  {
    if r.forwardedFor.Some? && r.forwardedFor.value != "" then
      Some(Strip(BeforeFirstComma(r.forwardedFor.value)))
    else
      r.remoteAddr
  }

  /** A forwarded-for header `p + a + q + rest`, where `a` is the client address,
      `p` and `q` are whitespace around it and `rest` is empty or starts with
      the comma that separates the next proxy, resolves to exactly `a`. The
      remote address plays no part. */
  lemma {:induction false} ForwardedForFirstHop(r: Request, p: string, a: string, q: string, rest: string)
    requires AllSpace(p) && AllSpace(q) && Trimmed(a)
    requires ',' !in p + a + q
    requires rest == [] || rest[0] == ','
    requires p + a + q + rest != []
    requires r.forwardedFor == Some(p + a + q + rest)
    ensures GetIp(r) == Some(a)
  {
    BeforeFirstCommaOf(p + a + q, rest);
    StripPadded(p, a, q);
  }

  /** The header `203.0.113.1, 70.41.3.18` resolves to `203.0.113.1`. */
  lemma ForwardedForExample(remote: Option<string>)
    ensures GetIp(Request(None, None, Some("203.0.113.1, 70.41.3.18"), remote)) == Some("203.0.113.1")
  {
    var a := "203.0.113.1";
    var rest := ", 70.41.3.18";
    assert [] + a + [] + rest == "203.0.113.1, 70.41.3.18";
    assert !IsSpace(a[0]) && !IsSpace(a[|a| - 1]);
    ForwardedForFirstHop(Request(None, None, Some("203.0.113.1, 70.41.3.18"), remote), [], a, [], rest);
  }

  /** The keys of the metadata the builder produces. */
  const BuiltKeys: set<string> :=
    {"ip", "user_agent", "device", "device_type", "os", "browser", "is_mobile", "is_tablet", "is_pc", "referer"}

  function OptionalText(s: Option<string>): Value {
    if s.Some? then Str(s.value) else Null
  }

  /** `build`: the metadata dictionary for one request. `parse` is the
      user-agent parser, applied to the `User-Agent` header or to "" when the
      header is absent. */
  function Build(r: Request, parse: string -> UserAgent): (m: Object)
    ensures m.Keys == BuiltKeys
    ensures m["ip"] == OptionalText(GetIp(r))
    ensures m["user_agent"] == Str(if r.userAgent.Some? then r.userAgent.value else "")
    ensures m["referer"] == OptionalText(r.referer)
    ensures var ua := parse(if r.userAgent.Some? then r.userAgent.value else "");
      && m["device"] == Str(ua.device) && m["os"] == Str(ua.os) && m["browser"] == Str(ua.browser)
      && m["is_mobile"] == Bool(ua.isMobile) && m["is_tablet"] == Bool(ua.isTablet) && m["is_pc"] == Bool(ua.isPc)
      && m["device_type"] == Str(GetDeviceType(ua).Name())
    ensures m["device_type"].Str? && m["device_type"].text in DeviceTypeNames
    ensures m["is_mobile"] == Bool(true) ==> m["device_type"] == Str("mobile")
    ensures m["device_type"] == Str("mobile") ==> m["is_mobile"] == Bool(true)
    ensures m["device_type"] == Str("tablet") ==> m["is_tablet"] == Bool(true) && m["is_mobile"] == Bool(false)
    ensures m["device_type"] == Str("pc") ==> m["is_pc"] == Bool(true) && m["is_mobile"] == Bool(false) && m["is_tablet"] == Bool(false)
    ensures m["device_type"] in {Str("bot"), Str("unknown")} ==>
      m["is_mobile"] == Bool(false) && m["is_tablet"] == Bool(false) && m["is_pc"] == Bool(false)
  {
    var header := if r.userAgent.Some? then r.userAgent.value else "";
    var ua := parse(header);
    map[
      "ip" := OptionalText(GetIp(r)),
      "user_agent" := Str(header),
      "device" := Str(ua.device),
      "device_type" := Str(GetDeviceType(ua).Name()),
      "os" := Str(ua.os),
      "browser" := Str(ua.browser),
      "is_mobile" := Bool(ua.isMobile),
      "is_tablet" := Bool(ua.isTablet),
      "is_pc" := Bool(ua.isPc),
      "referer" := OptionalText(r.referer)
    ]
  }
}
