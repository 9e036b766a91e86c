/**
 The fixed-window rate limiter, and its agreement with a count over the whole request
 history. Source: src/rastir/server/rate_limiter.py.
 */
module RateLimiter {

  const WINDOW := 60.0

  /** now // 60.0 */
  function Bucket(now: real): int {
    (now / WINDOW).Floor
  }

  datatype Counter = Counter(current: int, count: nat)

  const FRESH := Counter(0, 0)

  /** One call of allow(): the window rotates if needed, then the request counts whether allowed or not. */
  function Tick(c: Counter, now: real): Counter {
    if Bucket(now) != c.current then Counter(Bucket(now), 1) else Counter(c.current, c.count + 1)
  }

  class WindowCounter {
    const limit: int
    var current: int
    var count: nat

    function View(): Counter
      reads this
    {
      Counter(current, count)
    }

    constructor (limit: int)
      ensures this.limit == limit && View() == FRESH
    {
      this.limit := limit;
      current, count := 0, 0;
    }

    /** lines 31-39 */
    method Allow(now: real) returns (ok: bool)
      modifies this
      ensures View() == Tick(old(View()), now)
      ensures ok <==> View().count <= limit
    {
      var bucket := Bucket(now);
      if bucket != current {
        current := bucket;
        count := 0;
      }
      count := count + 1;
      ok := count <= limit;
    }
  }

  // ----- one key over its history ---------------------------------------------

  predicate Forward(times: seq<real>) {
    forall i, j :: 0 <= i < j < |times| ==> times[i] <= times[j]
  }

  function After(times: seq<real>): Counter {
    if times == [] then FRESH else Tick(After(times[..|times| - 1]), times[|times| - 1])
  }

  function CountIn(times: seq<real>, b: int): nat {
    if times == [] then 0 else CountIn(times[..|times| - 1], b) + if Bucket(times[|times| - 1]) == b then 1 else 0
  }

  function AdmittedIn(times: seq<real>, limit: int, b: int): nat {
    if times == [] then 0
    else AdmittedIn(times[..|times| - 1], limit, b) +
         if Bucket(times[|times| - 1]) == b && After(times).count <= limit then 1 else 0
  }

  lemma BucketsGrow(x: real, y: real)
    requires x <= y
    ensures Bucket(x) <= Bucket(y)
  {
    assert x / WINDOW <= y / WINDOW;
  }

  /** Under a forward clock the counter holds the number of requests of the newest bucket. */
  lemma {:induction false} CounterIsCount(times: seq<real>)
    requires Forward(times) && times != []
    ensures var b := Bucket(times[|times| - 1]);
            && After(times) == Counter(b, CountIn(times, b))
            && forall later :: later > b ==> CountIn(times, later) == 0
    decreases |times|
  {
    var init, b := times[..|times| - 1], Bucket(times[|times| - 1]);
    if init == [] {
      assert After(init) == FRESH;
    } else {
      CounterIsCount(init);
      BucketsGrow(init[|init| - 1], times[|times| - 1]);
    }
  }

  /** In every bucket a key is admitted exactly min(requests, limit) times. */
  lemma {:induction false} AdmitsUpToLimit(times: seq<real>, limit: nat, b: int)
    requires Forward(times)
    ensures AdmittedIn(times, limit, b) == if CountIn(times, b) <= limit then CountIn(times, b) else limit
    decreases |times|
  {
    if times != [] {
      AdmitsUpToLimit(times[..|times| - 1], limit, b);
      if Bucket(times[|times| - 1]) == b { CounterIsCount(times); }
    }
  }

  /** Requests admitted in a closed interval of 60 seconds. */
  function AdmittedBetween(times: seq<real>, limit: int, from: real): nat {
    if times == [] then 0
    else AdmittedBetween(times[..|times| - 1], limit, from) +
         if from <= times[|times| - 1] <= from + 60.0 && After(times).count <= limit then 1 else 0
  }

  lemma {:induction false} TwoBuckets(times: seq<real>, limit: int, from: real)
    ensures AdmittedBetween(times, limit, from) <=
            AdmittedIn(times, limit, Bucket(from)) + AdmittedIn(times, limit, Bucket(from) + 1)
    decreases |times|
  {
    if times != [] {
      TwoBuckets(times[..|times| - 1], limit, from);
      var t := times[|times| - 1];
      if from <= t <= from + WINDOW {
        BucketsGrow(from, t);
        BucketsGrow(t, from + WINDOW);
        assert (from + WINDOW) / WINDOW == from / WINDOW + 1.0;
      }
    }
  }

  /** So no 60-second interval sees more than twice the limit. */
  lemma AtMostTwiceTheLimit(times: seq<real>, limit: nat, from: real)
    requires Forward(times)
    ensures AdmittedBetween(times, limit, from) <= 2 * limit
  {
    TwoBuckets(times, limit, from);
    AdmitsUpToLimit(times, limit, Bucket(from));
    AdmitsUpToLimit(times, limit, Bucket(from) + 1);
  }

  // ----- per-IP and per-service together --------------------------------------

  datatype Request = Request(ip: string, service: string, now: real)

  datatype Verdict = Allowed | BlockedByIp | BlockedByService

  datatype Limits = Limits(perIp: int, perService: int)

  /** All counters; a key not in a map has a fresh counter. */
  datatype Table = Table(ips: map<string, Counter>, services: map<string, Counter>)

  function Look(m: map<string, Counter>, k: string): Counter {
    if k in m then m[k] else FRESH
  }

  /** lines 72-85: the service counter is reached only past the IP check */
  function Check(l: Limits, t: Table, r: Request): (Table, Verdict) {
    var ip := Tick(Look(t.ips, r.ip), r.now);
    var t1 := t.(ips := t.ips[r.ip := ip]);
    if ip.count > l.perIp then (t1, BlockedByIp)
    else
      var service := Tick(Look(t.services, r.service), r.now);
      (t1.(services := t.services[r.service := service]),
       if service.count > l.perService then BlockedByService else Allowed)
  }

  /** What the counters of one dictionary hold. */
  ghost function Views(m: map<string, WindowCounter>): map<string, Counter>
    reads m.Values
  {
    map k | k in m :: m[k].View()
  }

  /** The counters of one defaultdict: all with the same limit, no two keys sharing one. */
  ghost predicate Separate(m: map<string, WindowCounter>, limit: int) {
    && (forall k :: k in m ==> m[k].limit == limit)
    && (forall j, k :: j in m && k in m && j != k ==> m[j] != m[k])
  }

  class RateLimiterObject {
    const limits: Limits
    var ips: map<string, WindowCounter>
    var services: map<string, WindowCounter>
    var limitedByIp: nat
    var limitedByService: nat

    constructor (limits: Limits)
      ensures this.limits == limits && Valid() && View() == Table(map[], map[]) && limitedByIp == limitedByService == 0
      ensures ips.Values + services.Values == {}
    {
      this.limits := limits;
      ips, services, limitedByIp, limitedByService := map[], map[], 0, 0;
    }

    ghost predicate Valid()
      reads this
    {
      && Separate(ips, limits.perIp) && Separate(services, limits.perService)
      && ips.Values !! services.Values
    }

    ghost function View(): Table
      reads this, ips.Values, services.Values
    {
      Table(Views(ips), Views(services))
    }

    /** self._ip_counters[ip].allow() */
    method AllowIp(ip: string, now: real) returns (ok: bool)
      requires Valid()
      modifies this`ips, ips.Values
      ensures Valid() && fresh(ips.Values - old(ips.Values))
      ensures var c := Tick(Look(old(View()).ips, ip), now);
              View() == old(View()).(ips := old(View()).ips[ip := c]) && (ok <==> c.count <= limits.perIp)
    {
      if ip !in ips {
        var counter := new WindowCounter(limits.perIp);
        ips := ips[ip := counter];
      }
      assert ips[ip] in ips.Values;
      ok := ips[ip].Allow(now);
      assert View().ips == old(View()).ips[ip := Tick(Look(old(View()).ips, ip), now)];
    }

    /** self._service_counters[service].allow() */
    method AllowService(service: string, now: real) returns (ok: bool)
      requires Valid()
      modifies this`services, services.Values
      ensures Valid() && fresh(services.Values - old(services.Values))
      ensures var c := Tick(Look(old(View()).services, service), now);
              View() == old(View()).(services := old(View()).services[service := c]) &&
                (ok <==> c.count <= limits.perService)
    {
      if service !in services {
        var counter := new WindowCounter(limits.perService);
        services := services[service := counter];
      }
      assert services[service] in services.Values;
      ok := services[service].Allow(now);
      assert View().services == old(View()).services[service := Tick(Look(old(View()).services, service), now)];
    }

    /** lines 72-85 */
    method CheckRequest(ip: string, service: string, now: real) returns (blocked: Verdict)
      requires Valid()
      modifies this, ips.Values, services.Values
      ensures Valid() && fresh(ips.Values - old(ips.Values)) && fresh(services.Values - old(services.Values))
      ensures (View(), blocked) == Check(limits, old(View()), Request(ip, service, now))
      ensures limitedByIp == old(limitedByIp) + if blocked == BlockedByIp then 1 else 0
      ensures limitedByService == old(limitedByService) + if blocked == BlockedByService then 1 else 0
    {
      hide Tick, Look, Views, Separate;
      var ok := AllowIp(ip, now);
      if !ok {
        limitedByIp := limitedByIp + 1;
        return BlockedByIp;
      }
      ok := AllowService(service, now);
      if !ok {
        limitedByService := limitedByService + 1;
        return BlockedByService;
      }
      blocked := Allowed;
    }
  }

  function TableAfter(l: Limits, h: seq<Request>): Table {
    if h == [] then Table(map[], map[]) else Check(l, TableAfter(l, h[..|h| - 1]), h[|h| - 1]).0
  }

  function VerdictAt(l: Limits, h: seq<Request>): Verdict
    requires h != []
  {
    Check(l, TableAfter(l, h[..|h| - 1]), h[|h| - 1]).1
  }

  /** Arrival times of the requests of one IP. */
  function IpTimes(h: seq<Request>, ip: string): seq<real> {
    if h == [] then [] else IpTimes(h[..|h| - 1], ip) + if h[|h| - 1].ip == ip then [h[|h| - 1].now] else []
  }

  /** Arrival times of the requests for one service that passed their IP check. */
  function ServiceTimes(l: Limits, h: seq<Request>, service: string): seq<real> {
    if h == [] then []
    else ServiceTimes(l, h[..|h| - 1], service) +
         if h[|h| - 1].service == service && VerdictAt(l, h) != BlockedByIp then [h[|h| - 1].now] else []
  }

  /** The fast table is the one-key counter run over each key's own history. */
  lemma {:induction false} TableIsHistory(l: Limits, h: seq<Request>, ip: string, service: string)
    ensures Look(TableAfter(l, h).ips, ip) == After(IpTimes(h, ip))
    ensures Look(TableAfter(l, h).services, service) == After(ServiceTimes(l, h, service))
    decreases |h|
  {
    if h != [] {
      var init, r := h[..|h| - 1], h[|h| - 1];
      TableIsHistory(l, init, ip, service);
      SnocAfter(IpTimes(init, ip), r.now);
      SnocAfter(ServiceTimes(l, init, service), r.now);
    }
  }

  lemma SnocAfter(times: seq<real>, now: real)
    ensures After(times + [now]) == Tick(After(times), now)
    ensures After(times + []) == After(times)
  {
    assert (times + [now])[..|times|] == times && times + [] == times;
  }

  predicate ForwardRequests(h: seq<Request>) {
    forall i, j :: 0 <= i < j < |h| ==> h[i].now <= h[j].now
  }

  ghost predicate Within(times: seq<real>, h: seq<Request>) {
    forall k :: 0 <= k < |times| ==> At(h, times[k])
  }

  ghost predicate At(h: seq<Request>, x: real) {
    exists i :: 0 <= i < |h| && h[i].now == x
  }

  lemma {:induction false} TimesForward(l: Limits, h: seq<Request>, ip: string, service: string)
    requires ForwardRequests(h)
    ensures Forward(IpTimes(h, ip)) && Within(IpTimes(h, ip), h)
    ensures Forward(ServiceTimes(l, h, service)) && Within(ServiceTimes(l, h, service), h)
    decreases |h|
  {
    if h != [] {
      TimesForward(l, h[..|h| - 1], ip, service);
      SnocForward(IpTimes(h[..|h| - 1], ip), h);
      SnocForward(ServiceTimes(l, h[..|h| - 1], service), h);
    }
  }

  lemma SnocForward(times: seq<real>, h: seq<Request>)
    requires h != [] && ForwardRequests(h) && Forward(times) && Within(times, h[..|h| - 1])
    ensures Forward(times + [h[|h| - 1].now]) && Within(times + [h[|h| - 1].now], h)
    ensures Forward(times + []) && Within(times + [], h)
  {
    assert times + [] == times;
    var init, last := h[..|h| - 1], |h| - 1;
    forall k | 0 <= k < |times| ensures times[k] <= h[last].now && At(h, times[k]) {
      assert At(init, times[k]);
      var i :| 0 <= i < |init| && init[i].now == times[k];
      assert h[i].now == times[k];
    }
    assert At(h, h[last].now);
  }

  /** Fully allowed requests of one IP, and of one service, in a bucket. */
  function AllowedIn(l: Limits, h: seq<Request>, ip: string, service: string, byIp: bool, b: int): nat {
    if h == [] then 0
    else
      var r := h[|h| - 1];
      AllowedIn(l, h[..|h| - 1], ip, service, byIp, b) +
      if VerdictAt(l, h) == Allowed && Bucket(r.now) == b &&
        (if byIp then r.ip == ip else r.service == service) then 1 else 0
  }

  lemma {:induction false} AllowedBoundedByKeys(l: Limits, h: seq<Request>, ip: string, service: string, b: int)
    ensures AllowedIn(l, h, ip, service, true, b) <= AdmittedIn(IpTimes(h, ip), l.perIp, b)
    ensures AllowedIn(l, h, ip, service, false, b) == AdmittedIn(ServiceTimes(l, h, service), l.perService, b)
    decreases |h|
  {
    if h != [] {
      var init, r := h[..|h| - 1], h[|h| - 1];
      AllowedBoundedByKeys(l, init, ip, service, b);
      TableIsHistory(l, init, r.ip, r.service);
      SnocAdmitted(IpTimes(init, ip), r.now, l.perIp, b);
      SnocAdmitted(ServiceTimes(l, init, service), r.now, l.perService, b);
    }
  }

  lemma SnocAdmitted(times: seq<real>, now: real, limit: int, b: int)
    ensures AdmittedIn(times + [now], limit, b) ==
            AdmittedIn(times, limit, b) + if Bucket(now) == b && Tick(After(times), now).count <= limit then 1 else 0
    ensures AdmittedIn(times + [], limit, b) == AdmittedIn(times, limit, b)
  {
    SnocAfter(times, now);
    assert (times + [now])[..|times|] == times && times + [] == times;
  }

  /**
   check() keeps both bounds at once in every bucket, and for a service it admits exactly
   min(requests past their IP check, limit): a request its service blocks has still used
   up IP quota, but never the other way round.
   */
  lemma CheckKeepsBothBounds(l: Limits, h: seq<Request>, ip: string, service: string, b: int)
    requires ForwardRequests(h) && l.perIp >= 0 && l.perService >= 0
    ensures AllowedIn(l, h, ip, service, true, b) <= l.perIp
    ensures var passed := CountIn(ServiceTimes(l, h, service), b);
            AllowedIn(l, h, ip, service, false, b) == if passed <= l.perService then passed else l.perService
  {
    TimesForward(l, h, ip, service);
    AllowedBoundedByKeys(l, h, ip, service, b);
    AdmitsUpToLimit(IpTimes(h, ip), l.perIp, b);
    AdmitsUpToLimit(ServiceTimes(l, h, service), l.perService, b);
  }

  // ----- the verdict on one request ------------------------------------------------

  /** Requests of one IP in one minute, the minutes counted from the clock's zero. */
  function FromIp(h: seq<Request>, ip: string, minute: int): nat {
    if h == [] then 0
    else FromIp(h[..|h| - 1], ip, minute) +
         if h[|h| - 1].ip == ip && (h[|h| - 1].now / 60.0).Floor == minute then 1 else 0
  }

  /** Requests of one IP that passed their IP check, in one minute. */
  function PastIp(l: Limits, h: seq<Request>, ip: string, minute: int): nat {
    if h == [] then 0
    else PastIp(l, h[..|h| - 1], ip, minute) +
         if h[|h| - 1].ip == ip && (h[|h| - 1].now / 60.0).Floor == minute && VerdictAt(l, h) != BlockedByIp
         then 1 else 0
  }

  /** Requests for one service that passed their IP check, in one minute. */
  function ForService(l: Limits, h: seq<Request>, service: string, minute: int): nat {
    if h == [] then 0
    else ForService(l, h[..|h| - 1], service, minute) +
         if h[|h| - 1].service == service && (h[|h| - 1].now / 60.0).Floor == minute && VerdictAt(l, h) != BlockedByIp
         then 1 else 0
  }

  lemma SnocCount(times: seq<real>, now: real, b: int)
    ensures CountIn(times + [now], b) == CountIn(times, b) + if (now / 60.0).Floor == b then 1 else 0
    ensures times + [] == times
  {
    assert (times + [now])[..|times|] == times;
  }

  lemma {:induction false} IpCountsAgree(h: seq<Request>, ip: string, minute: int)
    ensures FromIp(h, ip, minute) == CountIn(IpTimes(h, ip), minute)
    decreases |h|
  {
    if h != [] {
      var init := h[..|h| - 1];
      IpCountsAgree(init, ip, minute);
      SnocCount(IpTimes(init, ip), h[|h| - 1].now, minute);
      hide CountIn, Bucket;
    }
  }

  lemma {:induction false} ServiceCountsAgree(l: Limits, h: seq<Request>, service: string, minute: int)
    ensures ForService(l, h, service, minute) == CountIn(ServiceTimes(l, h, service), minute)
    decreases |h|
  {
    if h != [] {
      var init := h[..|h| - 1];
      ServiceCountsAgree(l, init, service, minute);
      SnocCount(ServiceTimes(l, init, service), h[|h| - 1].now, minute);
      hide CountIn, Bucket, VerdictAt;
    }
  }

  /**
   A request is blocked by its IP exactly when it is beyond the limit of its IP in its minute, and by
   its service exactly when it is not, and is beyond the service's among those that got that far.
   */
  lemma VerdictIff(l: Limits, h: seq<Request>)
    requires h != [] && ForwardRequests(h)
    ensures var r := h[|h| - 1];
            var minute := (r.now / 60.0).Floor;
            && (VerdictAt(l, h) == BlockedByIp <==> FromIp(h, r.ip, minute) > l.perIp)
            && (VerdictAt(l, h) == BlockedByService <==>
                  FromIp(h, r.ip, minute) <= l.perIp && ForService(l, h, r.service, minute) > l.perService)
  {
    IpCounter(l, h);
    if VerdictAt(l, h) != BlockedByIp { ServiceCounter(l, h); }
  }

  lemma IpCounter(l: Limits, h: seq<Request>)
    requires h != [] && ForwardRequests(h)
    ensures var r := h[|h| - 1];
            Tick(Look(TableAfter(l, h[..|h| - 1]).ips, r.ip), r.now).count == FromIp(h, r.ip, (r.now / 60.0).Floor)
  {
    var init, r := h[..|h| - 1], h[|h| - 1];
    TableIsHistory(l, init, r.ip, r.service);
    SnocAfter(IpTimes(init, r.ip), r.now);
    TimesForward(l, h, r.ip, r.service);
    CounterIsCount(IpTimes(h, r.ip));
    hide TableAfter, CountIn, FromIp, After, Tick, Look;
    IpCountsAgree(h, r.ip, Bucket(r.now));
  }

  lemma ServiceCounter(l: Limits, h: seq<Request>)
    requires h != [] && ForwardRequests(h) && VerdictAt(l, h) != BlockedByIp
    ensures var r := h[|h| - 1];
            Tick(Look(TableAfter(l, h[..|h| - 1]).services, r.service), r.now).count ==
            ForService(l, h, r.service, (r.now / 60.0).Floor)
  {
    var init, r := h[..|h| - 1], h[|h| - 1];
    TableIsHistory(l, init, r.ip, r.service);
    SnocAfter(ServiceTimes(l, init, r.service), r.now);
    TimesForward(l, h, r.ip, r.service);
    hide TableAfter, VerdictAt, CountIn, ForService, After, Tick, Look;
    CounterIsCount(ServiceTimes(l, h, r.service));
    ServiceCountsAgree(l, h, r.service, Bucket(r.now));
  }

  /** In every minute exactly min(requests, limit) of an IP's requests pass its check. */
  lemma {:induction false} IpPassesUpToLimit(l: Limits, h: seq<Request>, ip: string, minute: int)
    requires ForwardRequests(h) && l.perIp >= 0
    ensures var all := FromIp(h, ip, minute); PastIp(l, h, ip, minute) == if all <= l.perIp then all else l.perIp
    decreases |h|
  {
    if h != [] {
      IpPassesUpToLimit(l, h[..|h| - 1], ip, minute);
      VerdictIff(l, h);
      hide VerdictAt;
    }
  }
}
