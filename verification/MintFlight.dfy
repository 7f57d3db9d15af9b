/** The mint verifier: one shared chain read per mint, a cache with a lifetime, and a
    count of authority drifts. The mutex makes each critical section one step; reads,
    channel closing and a caller giving up fall between them. */
module MintFlight {
  import opened Options

  type Key = nat
  type Flight = nat
  type Caller = nat
  type Time = int

  datatype Observation = Observation(fault: bool, drifted: bool, at: Time)

  datatype Reading = Read(obs: Observation) | Unreachable

  // ---------------------------------------------------------------- what the mutex guards

  datatype Shared = Shared(cache: map<Key, Observation>, inflight: map<Key, Flight>, drifts: nat)

  datatype Entry = Hit(obs: Observation) | Join(flight: Flight) | Lead

  /** What a caller that read the clock at a given time finds. */
  function Found(s: Shared, key: Key, now: Time, ttl: int): Entry
  {
    if key in s.cache && now - s.cache[key].at < ttl then Hit(s.cache[key])
    else if key in s.inflight then Join(s.inflight[key])
    else Lead
  }

  function Entered(s: Shared, key: Key, now: Time, ttl: int, flight: Flight): Shared
  {
    if Found(s, key, now, ttl).Lead? then s.(inflight := s.inflight[key := flight]) else s
  }

  function Published(s: Shared, key: Key, r: Reading): Shared
  {
    var left := s.(inflight := s.inflight - {key});
    match r
    case Unreachable => left
    case Read(obs) => left.(cache := s.cache[key := obs], drifts := s.drifts + if obs.drifted then 1 else 0)
  }

  class MintVerifier {
    const ttl: int
    var cache: map<Key, Observation>
    var inflight: map<Key, Flight>
    var drifts: nat

    function Snapshot(): Shared
      reads this
    {
      Shared(cache, inflight, drifts)
    }

    constructor (ttl: int)
      ensures Snapshot() == Shared(map[], map[], 0) && this.ttl == ttl
    {
      this.ttl := ttl;
      cache, inflight, drifts := map[], map[], 0;
    }

    /** First critical section: a fresh cached reading, a flight to wait for, or the lead. */
    method Enter(key: Key, now: Time, flight: Flight) returns (found: Entry)
      modifies this
      ensures found == Found(old(Snapshot()), key, now, ttl)
      ensures Snapshot() == Entered(old(Snapshot()), key, now, ttl, flight)
    {
      if key in cache {
        if now - cache[key].at < ttl {
          return Hit(cache[key]);
        }
      }
      if key in inflight {
        return Join(inflight[key]);
      }
      inflight := inflight[key := flight];
      found := Lead;
    }

    /** Second critical section: the flight is over; only a reading is cached and counted. */
    method Publish(key: Key, r: Reading)
      modifies this
      ensures Snapshot() == Published(old(Snapshot()), key, r)
    {
      inflight := inflight - {key};
      if r.Read? {
        cache := cache[key := r.obs];
        if r.obs.drifted {
          drifts := drifts + 1;
        }
      }
    }
  }

  // ---------------------------------------------------------------- callers and flights

  /** A flight is begun when registered, read when the chain has answered, and ended when
      published; waiters see its reading once its channel is closed. */
  datatype FlightState = FlightState(
    key: Key,
    leader: Caller,
    begun: nat,
    read: Option<nat>,
    ended: Option<nat>,
    reading: Option<Reading>,
    closed: bool)

  datatype Source = FromCache | FromFlight(flight: Flight)

  datatype Answer = Answered(reading: Reading) | GaveUp

  datatype CallerState =
    | Arrived(key: Key, arrived: nat, now: Time)
    | Leading(key: Key, arrived: nat, flight: Flight)
    | Holding(key: Key, arrived: nat, flight: Flight, reading: Reading)
    | Announcing(key: Key, arrived: nat, flight: Flight, reading: Reading)
    | Leaving(key: Key, arrived: nat, flight: Flight, reading: Reading)
    | Waiting(key: Key, arrived: nat, flight: Flight)
    | Done(key: Key, arrived: nat, now: Time, done: nat, source: Source, answer: Answer)

  datatype System = System(
    shared: Shared,
    flights: map<Flight, FlightState>,
    callers: map<Caller, CallerState>,
    clock: nat,
    now: Time)

  datatype Step =
    | Arrive(c: Caller, key: Key)
    | Enter(c: Caller, flight: Flight)
    | ReadBack(c: Caller, reading: Reading)
    | Publish(c: Caller)
    | Close(c: Caller)
    | Return(c: Caller, cancelled: bool)
    | Wake(c: Caller)
    | GiveUp(c: Caller)
    | Pass(to: Time)

  function Init(now: Time): System { System(Shared(map[], map[], 0), map[], map[], 0, now) }

  predicate Enabled(s: System, step: Step)
  {
    match step
    case Arrive(c, key) => c !in s.callers
    case Enter(c, flight) => c in s.callers && s.callers[c].Arrived? && flight !in s.flights
    case ReadBack(c, reading) => c in s.callers && s.callers[c].Leading? && (reading.Read? ==> reading.obs.at <= s.now)
    case Publish(c) => c in s.callers && s.callers[c].Holding?
    case Close(c) => c in s.callers && s.callers[c].Announcing? && s.callers[c].flight in s.flights
    case Return(c, _) => c in s.callers && s.callers[c].Leaving?
    case Wake(c) =>
      && c in s.callers && s.callers[c].Waiting? && s.callers[c].flight in s.flights
      && s.flights[s.callers[c].flight].closed && s.flights[s.callers[c].flight].reading.Some?
    case GiveUp(c) => c in s.callers && s.callers[c].Waiting?
    case Pass(to) => s.now <= to
  }

  function Next(ttl: int, s: System, step: Step): System
    requires Enabled(s, step)
  {
    var t := s.(clock := s.clock + 1);
    match step
    case Arrive(c, key) => t.(callers := s.callers[c := Arrived(key, s.clock, s.now)])
    case Enter(c, flight) =>
      var a := s.callers[c];
      var shared := Entered(s.shared, a.key, a.now, ttl, flight);
      (match Found(s.shared, a.key, a.now, ttl)
       case Hit(obs) => t.(callers := s.callers[c := Done(a.key, a.arrived, a.now, s.clock, FromCache, Answered(Read(obs)))])
       case Join(f) => t.(callers := s.callers[c := Waiting(a.key, a.arrived, f)])
       case Lead =>
         t.(shared := shared,
            flights := s.flights[flight := FlightState(a.key, c, s.clock, None, None, None, false)],
            callers := s.callers[c := Leading(a.key, a.arrived, flight)]))
    case ReadBack(c, reading) =>
      var a := s.callers[c];
      t.(flights := if a.flight in s.flights
                    then s.flights[a.flight := s.flights[a.flight].(read := Some(s.clock))]
                    else s.flights,
         callers := s.callers[c := Holding(a.key, a.arrived, a.flight, reading)])
    case Publish(c) =>
      var a := s.callers[c];
      t.(shared := Published(s.shared, a.key, a.reading),
         flights := if a.flight in s.flights
                    then s.flights[a.flight := s.flights[a.flight].(ended := Some(s.clock), reading := Some(a.reading))]
                    else s.flights,
         callers := s.callers[c := Announcing(a.key, a.arrived, a.flight, a.reading)])
    case Close(c) =>
      var a := s.callers[c];
      t.(flights := s.flights[a.flight := s.flights[a.flight].(closed := true)],
         callers := s.callers[c := Leaving(a.key, a.arrived, a.flight, a.reading)])
    case Return(c, cancelled) =>
      var a := s.callers[c];
      t.(callers := s.callers[c := Done(a.key, a.arrived, s.now, s.clock, FromFlight(a.flight),
                                        if cancelled then GaveUp else Answered(a.reading))])
    case Wake(c) =>
      var a := s.callers[c];
      t.(callers := s.callers[c := Done(a.key, a.arrived, s.now, s.clock, FromFlight(a.flight),
                                        Answered(s.flights[a.flight].reading.value))])
    case GiveUp(c) =>
      var a := s.callers[c];
      t.(callers := s.callers[c := Done(a.key, a.arrived, s.now, s.clock, FromFlight(a.flight), GaveUp)])
    case Pass(to) => t.(now := to)
  }

  // ---------------------------------------------------------------- invariant

  predicate Reads(a: CallerState) { a.Leading? || a.Holding? }

  predicate Leads(a: CallerState) { Reads(a) || a.Announcing? || a.Leaving? }

  /** A registered flight has its leader still reading. */
  predicate InflightOk(s: System)
  {
    forall k :: k in s.shared.inflight ==>
      var f := s.shared.inflight[k];
      && f in s.flights && s.flights[f].key == k && s.flights[f].ended.None?
      && s.flights[f].leader in s.callers && Reads(s.callers[s.flights[f].leader])
      && s.callers[s.flights[f].leader].flight == f
  }

  predicate FlightOk(s: System, f: Flight)
    requires f in s.flights
  {
    var x := s.flights[f];
    && x.begun < s.clock && (x.read.Some? ==> x.begun < x.read.value < s.clock)
    && (x.ended.Some? ==> x.read.Some? && x.read.value < x.ended.value < s.clock)
    && (x.ended.Some? <==> x.reading.Some?) && (x.closed ==> x.reading.Some?)
    && (x.ended.None? ==> x.key in s.shared.inflight && s.shared.inflight[x.key] == f)
  }

  ghost predicate CallerOk(ttl: int, s: System, c: Caller)
    requires c in s.callers
  {
    var a := s.callers[c];
    && a.arrived < s.clock
    && (Leads(a) ==>
          && a.flight in s.flights && s.flights[a.flight].key == a.key && s.flights[a.flight].leader == c
          && a.arrived < s.flights[a.flight].begun)
    && (Reads(a) ==> s.flights[a.flight].ended.None?)
    && (a.Leading? ==> s.flights[a.flight].read.None?) && (a.Holding? ==> s.flights[a.flight].read.Some?)
    && (a.Announcing? || a.Leaving? ==> s.flights[a.flight].reading == Some(a.reading))
    && (a.Leaving? ==> s.flights[a.flight].closed)
    && (a.Waiting? ==>
          && a.flight in s.flights && s.flights[a.flight].key == a.key
          && (s.flights[a.flight].ended.Some? ==> a.arrived < s.flights[a.flight].ended.value))
    && (a.Done? ==> DoneOk(ttl, s, a))
  }

  ghost predicate DoneOk(ttl: int, s: System, a: CallerState)
    requires a.Done?
  {
    && a.arrived < a.done < s.clock
    && match a.source
       case FromCache => a.answer.Answered? && a.answer.reading.Read? && a.now - a.answer.reading.obs.at < ttl
                         && exists f :: ReadBy(s, f, a.key, a.answer.reading.obs)
       case FromFlight(f) =>
         && f in s.flights && s.flights[f].key == a.key
         && (a.answer.Answered? ==>
               && s.flights[f].closed && s.flights[f].reading == Some(a.answer.reading)
               && s.flights[f].ended.Some? && s.flights[f].begun < a.done && a.arrived < s.flights[f].ended.value)
  }

  /** A finished flight for this key that read this observation. */
  predicate ReadBy(s: System, f: Flight, key: Key, obs: Observation)
  {
    f in s.flights && s.flights[f].key == key && s.flights[f].reading == Some(Read(obs))
  }

  ghost predicate CacheOk(s: System)
  {
    forall k :: k in s.shared.cache ==> exists f :: ReadBy(s, f, k, s.shared.cache[k])
  }

  function Drifted(flights: map<Flight, FlightState>): set<Flight>
  {
    set f | f in flights && flights[f].reading.Some? && flights[f].reading.value.Read? && flights[f].reading.value.obs.drifted
  }

  ghost predicate Inv(ttl: int, s: System)
  {
    && InflightOk(s) && CacheOk(s) && s.shared.drifts == |Drifted(s.flights)|
    && (forall f :: f in s.flights ==> FlightOk(s, f))
    && (forall c :: c in s.callers ==> CallerOk(ttl, s, c))
  }

  lemma InitOk(ttl: int, now: Time)
    ensures Inv(ttl, Init(now))
  {
  }

  /** Flights already begun keep their key and leader, and what they published. */
  ghost predicate FlightsGrow(v: map<Flight, FlightState>, w: map<Flight, FlightState>)
  {
    forall f :: f in v ==>
      && f in w && w[f].key == v[f].key && w[f].leader == v[f].leader && w[f].begun == v[f].begun
      && (v[f].reading.Some? ==> w[f].reading == v[f].reading)
      && (v[f].read.Some? ==> w[f].read == v[f].read)
      && (v[f].ended.Some? ==> w[f].ended == v[f].ended)
      && (v[f].closed ==> w[f].closed)
  }

  lemma ReadByGrows(v: System, w: System, f: Flight, key: Key, obs: Observation)
    requires FlightsGrow(v.flights, w.flights) && ReadBy(v, f, key, obs)
    ensures ReadBy(w, f, key, obs)
  {
  }

  lemma CacheGrows(v: System, w: System)
    requires FlightsGrow(v.flights, w.flights) && CacheOk(v) && v.shared.cache == w.shared.cache
    ensures CacheOk(w)
  {
    forall k | k in w.shared.cache ensures exists f :: ReadBy(w, f, k, w.shared.cache[k]) {
      var f :| ReadBy(v, f, k, v.shared.cache[k]);
      ReadByGrows(v, w, f, k, v.shared.cache[k]);
    }
  }

  /** A finished caller's answer stays explained. */
  lemma DoneStable(ttl: int, v: System, w: System, a: CallerState)
    requires a.Done? && DoneOk(ttl, v, a) && FlightsGrow(v.flights, w.flights) && v.clock <= w.clock
    ensures DoneOk(ttl, w, a)
  {
    if a.source.FromCache? {
      var f :| ReadBy(v, f, a.key, a.answer.reading.obs);
      ReadByGrows(v, w, f, a.key, a.answer.reading.obs);
    }
  }

  /** Another caller's step leaves a caller's facts alone. */
  lemma CallerStable(ttl: int, v: System, w: System, c: Caller)
    requires c in v.callers && c in w.callers && v.callers[c] == w.callers[c] && CallerOk(ttl, v, c)
    requires FlightsGrow(v.flights, w.flights) && v.clock <= w.clock
    requires forall f :: f in v.flights && v.flights[f].leader == c ==>
               w.flights[f].ended == v.flights[f].ended && w.flights[f].read == v.flights[f].read
    requires forall f :: f in v.flights && v.flights[f].ended.None? && w.flights[f].ended.Some? ==> w.flights[f].ended.value >= v.clock
    ensures CallerOk(ttl, w, c)
  {
    hide DoneOk;
    var a := v.callers[c];
    if a.Done? {
      DoneStable(ttl, v, w, a);
    } else if !a.Arrived? {
      var x, y := v.flights[a.flight], w.flights[a.flight];
      assert y.key == x.key && y.leader == x.leader && y.begun == x.begun;
      assert x.reading.Some? ==> y.reading == x.reading;
      assert Leads(a) ==> y.ended == x.ended && y.read == x.read;
    }
  }

  // ---------------------------------------------------------------- steps

  ghost predicate FlightsOk(s: System) { InflightOk(s) && forall f :: f in s.flights ==> FlightOk(s, f) }

  ghost predicate CallersOk(ttl: int, s: System) { forall c :: c in s.callers ==> CallerOk(ttl, s, c) }

  /** Only a caller's own step changes it, or ends the flight it leads. */
  ghost predicate OthersKept(s: System, t: System, c: Caller)
  {
    && s.clock <= t.clock && FlightsGrow(s.flights, t.flights)
    && t.callers.Keys == s.callers.Keys + {c}
    && (forall d :: d in s.callers && d != c ==> t.callers[d] == s.callers[d])
    && (forall f :: f in s.flights && s.flights[f].leader != c ==>
          t.flights[f].ended == s.flights[f].ended && t.flights[f].read == s.flights[f].read)
    && (forall f :: f in s.flights && s.flights[f].ended.None? && t.flights[f].ended.Some? ==> t.flights[f].ended.value >= s.clock)
  }

  lemma CallersKeep(ttl: int, s: System, t: System, c: Caller)
    requires CallersOk(ttl, s) && OthersKept(s, t, c) && CallerOk(ttl, t, c)
    ensures CallersOk(ttl, t)
  {
    hide CallerOk, FlightsGrow;
    forall d | d in t.callers ensures CallerOk(ttl, t, d) {
      if d != c { CallerStable(ttl, s, t, d); }
    }
  }

  lemma ArriveKeeps(ttl: int, s: System, step: Step)
    requires Inv(ttl, s) && Enabled(s, step) && (step.Arrive? || step.Pass?)
    ensures Inv(ttl, Next(ttl, s, step))
  {
    var t := Next(ttl, s, step);
    CacheGrows(s, t);
    forall c | c in t.callers ensures CallerOk(ttl, t, c) {
      if c in s.callers { CallerStable(ttl, s, t, c); }
    }
    hide CallerOk, CacheOk;
  }

  lemma EnterKeeps(ttl: int, s: System, c: Caller, flight: Flight)
    requires Inv(ttl, s) && Enabled(s, Enter(c, flight))
    ensures Inv(ttl, Next(ttl, s, Enter(c, flight)))
  {
    hide CallerOk, FlightOk, InflightOk, CacheOk;
    var t := Next(ttl, s, Enter(c, flight));
    assert Drifted(t.flights) == Drifted(s.flights);
    CacheGrows(s, t);
    EnteredCaller(ttl, s, c, flight);
    CallersKeep(ttl, s, t, c);
    EnteredFlights(ttl, s, c, flight);
  }

  lemma EnteredFlights(ttl: int, s: System, c: Caller, flight: Flight)
    requires Inv(ttl, s) && Enabled(s, Enter(c, flight))
    ensures FlightsOk(Next(ttl, s, Enter(c, flight)))
  {
    hide CallerOk, CacheOk, Drifted, FlightOk, InflightOk, Found;
    var t := Next(ttl, s, Enter(c, flight));
    EnteredInflight(ttl, s, c, flight);
    forall f | f in t.flights ensures FlightOk(t, f) {
      EnteredFlight(ttl, s, c, flight, f);
    }
  }

  lemma EnteredInflight(ttl: int, s: System, c: Caller, flight: Flight)
    requires Inv(ttl, s) && Enabled(s, Enter(c, flight))
    ensures InflightOk(Next(ttl, s, Enter(c, flight)))
  {
    hide CallerOk, CacheOk, Drifted, FlightOk;
  }

  lemma EnteredFlight(ttl: int, s: System, c: Caller, flight: Flight, f: Flight)
    requires Inv(ttl, s) && Enabled(s, Enter(c, flight)) && f in Next(ttl, s, Enter(c, flight)).flights
    ensures FlightOk(Next(ttl, s, Enter(c, flight)), f)
  {
    hide CallerOk, CacheOk, Drifted, InflightOk;
    if f in s.flights { assert FlightOk(s, f); }
  }

  lemma EnteredCaller(ttl: int, s: System, c: Caller, flight: Flight)
    requires Inv(ttl, s) && Enabled(s, Enter(c, flight))
    ensures CallerOk(ttl, Next(ttl, s, Enter(c, flight)), c)
  {
    var a := s.callers[c];
    assert CallerOk(ttl, s, c);
    if Found(s.shared, a.key, a.now, ttl).Hit? {
      var f :| ReadBy(s, f, a.key, s.shared.cache[a.key]);
      ReadByGrows(s, Next(ttl, s, Enter(c, flight)), f, a.key, s.shared.cache[a.key]);
    }
  }

  lemma ReadBackKeeps(ttl: int, s: System, c: Caller, reading: Reading)
    requires Inv(ttl, s) && Enabled(s, ReadBack(c, reading))
    ensures Inv(ttl, Next(ttl, s, ReadBack(c, reading)))
  {
    hide CacheOk, CallerOk, FlightOk, InflightOk, Drifted;
    var t := Next(ttl, s, ReadBack(c, reading));
    LeadIsRegistered(ttl, s, c);
    ReadCaller(ttl, s, c, reading);
    ReadFlights(ttl, s, c, reading);
    ReadDrifts(ttl, s, c, reading);
    assert t.shared == s.shared && |Drifted(t.flights)| == |Drifted(s.flights)|;
    CacheGrows(s, t);
    CallersKeep(ttl, s, t, c);
  }

  lemma ReadCaller(ttl: int, s: System, c: Caller, reading: Reading)
    requires Inv(ttl, s) && Enabled(s, ReadBack(c, reading))
    ensures CallerOk(ttl, Next(ttl, s, ReadBack(c, reading)), c)
  {
    hide CacheOk, InflightOk, Drifted, FlightOk;
    LeadIsRegistered(ttl, s, c);
    assert CallerOk(ttl, s, c);
  }

  lemma ReadFlights(ttl: int, s: System, c: Caller, reading: Reading)
    requires Inv(ttl, s) && Enabled(s, ReadBack(c, reading))
    ensures FlightsOk(Next(ttl, s, ReadBack(c, reading)))
  {
    hide CacheOk, CallerOk, Drifted;
    LeadIsRegistered(ttl, s, c);
  }

  lemma ReadDrifts(ttl: int, s: System, c: Caller, reading: Reading)
    requires Inv(ttl, s) && Enabled(s, ReadBack(c, reading))
    ensures Drifted(Next(ttl, s, ReadBack(c, reading)).flights) == Drifted(s.flights)
  {
    hide CacheOk, CallerOk, FlightOk, InflightOk;
    LeadIsRegistered(ttl, s, c);
  }

  /** The publishing caller leads a flight still registered under its key. */
  lemma LeadIsRegistered(ttl: int, s: System, c: Caller)
    requires Inv(ttl, s) && c in s.callers && Reads(s.callers[c])
    ensures var a := s.callers[c];
            && a.flight in s.flights && s.flights[a.flight].key == a.key && s.flights[a.flight].leader == c
            && s.flights[a.flight].ended.None? && s.flights[a.flight].reading.None? && !s.flights[a.flight].closed
            && (a.Leading? <==> s.flights[a.flight].read.None?) && s.flights[a.flight].begun < s.clock
            && a.key in s.shared.inflight && s.shared.inflight[a.key] == a.flight
  {
    assert CallerOk(ttl, s, c) && FlightOk(s, s.callers[c].flight);
  }

  lemma PublishKeeps(ttl: int, s: System, c: Caller)
    requires Inv(ttl, s) && Enabled(s, Publish(c))
    ensures Inv(ttl, Next(ttl, s, Publish(c)))
  {
    hide CacheOk, FlightOk, InflightOk, Drifted;
    var t := Next(ttl, s, Publish(c));
    LeadIsRegistered(ttl, s, c);
    assert CallerOk(ttl, s, c) && CallerOk(ttl, t, c);
    hide CallerOk;
    CallersKeep(ttl, s, t, c);
    PublishedFlights(ttl, s, c);
    PublishedCache(ttl, s, c);
    PublishedDrifts(ttl, s, c);
  }

  lemma PublishedFlights(ttl: int, s: System, c: Caller)
    requires Inv(ttl, s) && Enabled(s, Publish(c))
    ensures FlightsOk(Next(ttl, s, Publish(c)))
  {
    hide CacheOk, CallerOk, Drifted;
    LeadIsRegistered(ttl, s, c);
  }

  lemma PublishedCache(ttl: int, s: System, c: Caller)
    requires Inv(ttl, s) && Enabled(s, Publish(c))
    ensures CacheOk(Next(ttl, s, Publish(c)))
  {
    hide CallerOk, FlightOk, InflightOk, Drifted;
    var t, a := Next(ttl, s, Publish(c)), s.callers[c];
    LeadIsRegistered(ttl, s, c);
    forall k | k in t.shared.cache ensures exists f :: ReadBy(t, f, k, t.shared.cache[k]) {
      if k == a.key && a.reading.Read? {
        assert ReadBy(t, a.flight, k, t.shared.cache[k]);
      } else {
        var f :| ReadBy(s, f, k, s.shared.cache[k]);
        ReadByGrows(s, t, f, k, s.shared.cache[k]);
      }
    }
  }

  /** One drifted reading published, one more counted. */
  lemma PublishedDrifts(ttl: int, s: System, c: Caller)
    requires Inv(ttl, s) && Enabled(s, Publish(c))
    ensures var t := Next(ttl, s, Publish(c)); t.shared.drifts == |Drifted(t.flights)|
  {
    hide CallerOk, FlightOk, InflightOk, CacheOk;
    var t, a := Next(ttl, s, Publish(c)), s.callers[c];
    LeadIsRegistered(ttl, s, c);
    if a.reading.Read? && a.reading.obs.drifted {
      assert Drifted(t.flights) == Drifted(s.flights) + {a.flight};
    } else {
      assert Drifted(t.flights) == Drifted(s.flights);
    }
  }

  lemma CloseKeeps(ttl: int, s: System, c: Caller)
    requires Inv(ttl, s) && Enabled(s, Close(c))
    ensures Inv(ttl, Next(ttl, s, Close(c)))
  {
    hide CacheOk, CallerOk, FlightOk, InflightOk, Drifted;
    var t := Next(ttl, s, Close(c));
    ClosedCaller(ttl, s, c);
    ClosedFlights(ttl, s, c);
    assert t.shared == s.shared && |Drifted(t.flights)| == |Drifted(s.flights)|;
    CacheGrows(s, t);
    CallersKeep(ttl, s, t, c);
  }

  lemma ClosedCaller(ttl: int, s: System, c: Caller)
    requires Inv(ttl, s) && Enabled(s, Close(c))
    ensures CallerOk(ttl, Next(ttl, s, Close(c)), c)
  {
    hide CacheOk, InflightOk, Drifted, FlightOk;
    assert CallerOk(ttl, s, c);
  }

  lemma ClosedFlights(ttl: int, s: System, c: Caller)
    requires Inv(ttl, s) && Enabled(s, Close(c))
    ensures FlightsOk(Next(ttl, s, Close(c)))
    ensures Drifted(Next(ttl, s, Close(c)).flights) == Drifted(s.flights)
  {
    hide CacheOk;
    assert CallerOk(ttl, s, c);
    hide CallerOk;
  }

  lemma AnswerKeeps(ttl: int, s: System, step: Step)
    requires Inv(ttl, s) && Enabled(s, step) && (step.Return? || step.Wake? || step.GiveUp?)
    ensures Inv(ttl, Next(ttl, s, step))
  {
    hide CacheOk, Drifted;
    var t := Next(ttl, s, step);
    AnsweredCaller(ttl, s, step);
    AnsweredFlights(ttl, s, step);
    hide CallerOk, FlightOk, InflightOk;
    CacheGrows(s, t);
    CallersKeep(ttl, s, t, step.c);
  }

  lemma AnsweredCaller(ttl: int, s: System, step: Step)
    requires Inv(ttl, s) && Enabled(s, step) && (step.Return? || step.Wake? || step.GiveUp?)
    ensures CallerOk(ttl, Next(ttl, s, step), step.c)
  {
    hide CacheOk, Drifted;
    assert CallerOk(ttl, s, step.c) && FlightOk(s, s.callers[step.c].flight);
  }

  lemma AnsweredFlights(ttl: int, s: System, step: Step)
    requires Inv(ttl, s) && Enabled(s, step) && (step.Return? || step.Wake? || step.GiveUp?)
    ensures FlightsOk(Next(ttl, s, step))
  {
    hide CacheOk, Drifted, CallerOk;
  }

  lemma StepKeeps(ttl: int, s: System, step: Step)
    requires Inv(ttl, s) && Enabled(s, step)
    ensures Inv(ttl, Next(ttl, s, step))
  {
    hide Inv, Next;
    match step
    case Enter(c, flight) => EnterKeeps(ttl, s, c, flight);
    case ReadBack(c, reading) => ReadBackKeeps(ttl, s, c, reading);
    case Publish(c) => PublishKeeps(ttl, s, c);
    case Close(c) => CloseKeeps(ttl, s, c);
    case Arrive(_, _) => ArriveKeeps(ttl, s, step);
    case Pass(_) => ArriveKeeps(ttl, s, step);
    case _ => AnswerKeeps(ttl, s, step);
  }

  // ---------------------------------------------------------------- whole runs

  ghost predicate IsRun(ttl: int, states: seq<System>, steps: seq<Step>)
  {
    && |states| == |steps| + 1 && states[0] == Init(states[0].now)
    && forall i :: 0 <= i < |steps| ==> Enabled(states[i], steps[i]) && states[i + 1] == Next(ttl, states[i], steps[i])
  }

  ghost predicate Reachable(ttl: int, s: System)
  {
    exists states, steps :: IsRun(ttl, states, steps) && s == states[|states| - 1]
  }

  lemma {:induction false} Invariant(ttl: int, states: seq<System>, steps: seq<Step>, i: nat)
    requires IsRun(ttl, states, steps) && i < |states|
    ensures Inv(ttl, states[i])
  {
    hide Inv, Enabled, Next;
    if i == 0 {
      InitOk(ttl, states[0].now);
    } else {
      Invariant(ttl, states, steps, i - 1);
      StepKeeps(ttl, states[i - 1], steps[i - 1]);
    }
  }

  lemma ReachableInv(ttl: int, s: System)
    requires Reachable(ttl, s)
    ensures Inv(ttl, s)
  {
    hide Inv;
    var states, steps :| IsRun(ttl, states, steps) && s == states[|states| - 1];
    Invariant(ttl, states, steps, |states| - 1);
  }

  /** At most one chain read per mint is outstanding. */
  lemma OneReadPerMint(ttl: int, s: System, c: Caller, d: Caller)
    requires Reachable(ttl, s) && c in s.callers && d in s.callers
    requires Reads(s.callers[c]) && Reads(s.callers[d]) && s.callers[c].key == s.callers[d].key
    ensures c == d
  {
    ReachableInv(ttl, s);
    hide Reachable;
    LeadIsRegistered(ttl, s, c);
    LeadIsRegistered(ttl, s, d);
  }

  /** Everyone who waits is waiting for a flight that somebody still leads, or that has
      been read: no flight is orphaned. */
  lemma NoOrphanFlight(ttl: int, s: System, f: Flight)
    requires Reachable(ttl, s) && f in s.flights && s.flights[f].ended.None?
    ensures s.flights[f].leader in s.callers && Reads(s.callers[s.flights[f].leader])
            && s.callers[s.flights[f].leader].flight == f
  {
    ReachableInv(ttl, s);
    hide Reachable, CallerOk, CacheOk, Drifted;
    assert FlightOk(s, f);
  }

  /** Whoever is answered gets a reading of their mint from a flight that overlapped their
      call, or a cached one younger than the lifetime when they asked. The chain read itself
      overlapped the call exactly when the caller arrived before it came back: one who joins
      between the read and its publication is answered from a read already over. */
  lemma AnswersAreCurrent(ttl: int, s: System, c: Caller)
    requires Reachable(ttl, s) && c in s.callers && s.callers[c].Done? && s.callers[c].answer.Answered?
    ensures var a := s.callers[c];
            match a.source
            case FromCache => a.answer.reading.Read? && a.now - a.answer.reading.obs.at < ttl
                              && exists f :: ReadBy(s, f, a.key, a.answer.reading.obs)
            case FromFlight(f) =>
              && f in s.flights && s.flights[f].key == a.key && s.flights[f].ended.Some?
              && s.flights[f].begun < a.done && a.arrived < s.flights[f].ended.value
              && s.flights[f].reading == Some(a.answer.reading)
              && s.flights[f].read.Some? && s.flights[f].begun < s.flights[f].read.value < s.flights[f].ended.value
              && (ReadOverlaps(s.flights[f], a) <==> a.arrived < s.flights[f].read.value)
  {
    ReachableInv(ttl, s);
    hide Reachable, CacheOk, Drifted, InflightOk;
    assert CallerOk(ttl, s, c);
    if s.callers[c].source.FromFlight? {
      var x, a := s.flights[s.callers[c].source.flight], s.callers[c];
      assert FlightOk(s, a.source.flight);
      var at := if x.begun < a.arrived then a.arrived else x.begun;
      assert a.arrived < x.read.value ==> During(at, x.begun, x.read.value) && During(at, a.arrived, a.done);
    }
  }

  predicate During(at: nat, from: nat, to: nat) { from <= at < to }

  /** Some moment lay both within the chain read and within the call. */
  ghost predicate ReadOverlaps(x: FlightState, a: CallerState)
    requires a.Done? && x.read.Some?
  {
    exists at: nat :: During(at, x.begun, x.read.value) && During(at, a.arrived, a.done)
  }

  lemma ReachInit(ttl: int, now: Time)
    ensures Reachable(ttl, Init(now))
  {
    var states: seq<System>, steps: seq<Step> := [Init(now)], [];
    assert IsRun(ttl, states, steps) && Init(now) == states[|states| - 1];
  }

  lemma ReachNext(ttl: int, s: System, step: Step) returns (t: System)
    requires Reachable(ttl, s) && Enabled(s, step)
    ensures Reachable(ttl, t) && t == Next(ttl, s, step)
  {
    hide Enabled, Next;
    var states, steps :| IsRun(ttl, states, steps) && s == states[|states| - 1];
    t := Next(ttl, s, step);
    var longer, more := states + [t], steps + [step];
    forall i | 0 <= i < |more| ensures Enabled(longer[i], more[i]) && longer[i + 1] == Next(ttl, longer[i], more[i]) {
      if i < |steps| { assert longer[i] == states[i] && longer[i + 1] == states[i + 1] && more[i] == steps[i]; }
    }
    assert IsRun(ttl, longer, more) && t == longer[|longer| - 1];
  }

  /** Such a caller exists: it asks after the chain has answered, joins the flight before it
      is published, and is answered from a read that was over when it asked. */
  lemma LateJoiner(ttl: int, reading: Reading) returns (s: System)
    requires reading.Unreachable?
    ensures Reachable(ttl, s) && 1 in s.callers && s.callers[1].Done? && s.callers[1].answer == Answered(reading)
    ensures s.callers[1].source == FromFlight(0) && 0 in s.flights && s.flights[0].read.Some?
    ensures !ReadOverlaps(s.flights[0], s.callers[1])
  {
    hide Reachable;
    ReachInit(ttl, 0);
    s := ReachNext(ttl, Init(0), Arrive(0, 7));
    s := ReachNext(ttl, s, Enter(0, 0));
    s := ReachNext(ttl, s, ReadBack(0, reading));
    s := ReachNext(ttl, s, Arrive(1, 7));
    s := ReachNext(ttl, s, Enter(1, 1));
    s := ReachNext(ttl, s, Publish(0));
    s := ReachNext(ttl, s, Close(0));
    s := ReachNext(ttl, s, Wake(1));
  }

  /** Waiters get exactly what the leader read, whether or not the leader's own context
      was cancelled. */
  lemma OneAnswerPerFlight(ttl: int, s: System, c: Caller, d: Caller, f: Flight)
    requires Reachable(ttl, s) && c in s.callers && d in s.callers && s.callers[c].Done? && s.callers[d].Done?
    requires s.callers[c].source == FromFlight(f) && s.callers[d].source == FromFlight(f)
    ensures s.callers[c].answer.GaveUp? || s.callers[d].answer.GaveUp? || s.callers[c].answer == s.callers[d].answer
  {
    ReachableInv(ttl, s);
    hide Reachable, CacheOk, Drifted, FlightOk, InflightOk;
    assert CallerOk(ttl, s, c) && CallerOk(ttl, s, d);
  }

  /** Only successful readings are cached, each under its own mint. */
  lemma FailuresAreNotCached(ttl: int, s: System, key: Key)
    requires Reachable(ttl, s) && key in s.shared.cache
    ensures exists f :: f in s.flights && s.flights[f].key == key && s.flights[f].reading == Some(Read(s.shared.cache[key]))
  {
    ReachableInv(ttl, s);
    hide Reachable, CallerOk, Drifted, FlightOk, InflightOk;
    var f :| ReadBy(s, f, key, s.shared.cache[key]);
  }

  /** The counter is the number of drifted readings published, not of requests. */
  lemma DriftsCountReadings(ttl: int, s: System)
    requires Reachable(ttl, s)
    ensures s.shared.drifts == |Drifted(s.flights)|
  {
    ReachableInv(ttl, s);
    hide Reachable, CallerOk, Drifted, FlightOk, InflightOk, CacheOk;
  }

  // ---------------------------------------------------------------- what the cache is for

  /** A caller who enters within the lifetime of the reading cached for its mint has it on
      the spot: no flight begins, and whether the chain could be read now is nothing to it.
      Only a caller who finds neither such a reading nor a flight begins one. */
  lemma EnterDecides(ttl: int, s: System, c: Caller, flight: Flight)
    requires Enabled(s, Enter(c, flight))
    ensures var a, t := s.callers[c], Next(ttl, s, Enter(c, flight));
            if a.key in s.shared.cache && a.now - s.shared.cache[a.key].at < ttl then
              && t.flights == s.flights && t.shared == s.shared
              && t.callers[c] == Done(a.key, a.arrived, a.now, s.clock, FromCache, Answered(Read(s.shared.cache[a.key])))
            else if a.key in s.shared.inflight then
              t.flights == s.flights && t.shared == s.shared && t.callers[c] == Waiting(a.key, a.arrived, s.shared.inflight[a.key])
            else
              && t.callers[c] == Leading(a.key, a.arrived, flight) && t.flights.Keys == s.flights.Keys + {flight}
              && t.shared.inflight == s.shared.inflight[a.key := flight] && t.shared.cache == s.shared.cache
  {
  }

  predicate Publishes(s: System, step: Step, key: Key)
  {
    step.Publish? && step.c in s.callers && s.callers[step.c].Holding? && s.callers[step.c].key == key
  }

  /** A published reading is what the cache holds of its mint until the next is published. */
  lemma {:induction false} CachedUntilNext(ttl: int, states: seq<System>, steps: seq<Step>, i: nat, j: nat, key: Key)
    requires IsRun(ttl, states, steps) && i < j < |states| && Publishes(states[i], steps[i], key)
    requires states[i].callers[steps[i].c].reading.Read?
    requires forall k :: i < k < j && Publishes(states[k], steps[k], key) ==> states[k].callers[steps[k].c].reading.Unreachable?
    ensures key in states[j].shared.cache && states[j].shared.cache[key] == states[i].callers[steps[i].c].reading.obs
    decreases j
  {
    var k := j - 1;
    assert Enabled(states[k], steps[k]) && states[j] == Next(ttl, states[k], steps[k]);
    if i < k { CachedUntilNext(ttl, states, steps, i, k, key); }
  }

  /** So for its lifetime a reading answers everyone who asks for its mint, until another
      reading of it is published: no chain read is made, nor is one needed. */
  lemma CachedForLifetime(ttl: int, states: seq<System>, steps: seq<Step>, i: nat, j: nat)
    requires IsRun(ttl, states, steps) && i < j < |steps| && steps[i].Publish? && steps[j].Enter?
    requires Enabled(states[i], steps[i]) && Enabled(states[j], steps[j])
    requires var p, a := states[i].callers[steps[i].c], states[j].callers[steps[j].c];
             && p.key == a.key && p.reading.Read? && a.now - p.reading.obs.at < ttl
             && forall k :: i < k < j && Publishes(states[k], steps[k], a.key) ==> states[k].callers[steps[k].c].reading.Unreachable?
    ensures var p, a, d := states[i].callers[steps[i].c], states[j].callers[steps[j].c], states[j + 1].callers[steps[j].c];
            d.Done? && d.source == FromCache && d.answer == Answered(p.reading) && states[j + 1].flights == states[j].flights
  {
    hide Next;
    CachedUntilNext(ttl, states, steps, i, j, states[i].callers[steps[i].c].key);
    EnterDecides(ttl, states[j], steps[j].c, steps[j].flight);
  }
}
