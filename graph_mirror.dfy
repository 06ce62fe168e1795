/**
 * The graph mirror of neo4j_driver.py. The graph holds User nodes keyed by
 * their `email` property, Appointment nodes keyed by their `id` property, and
 * HAS_APPOINTMENT edges. Each of the three Cypher statements the module sends
 * is given its meaning as a function on the graph (`MERGE` finds or creates
 * the keyed node, `ON CREATE SET` applies only to a node it created,
 * `SET n += $props` overwrites the given keys and removes those given as
 * null, a failed `MATCH` makes the whole statement do nothing); the driver is a
 * class whose `execute_query` applies a statement to the database it is
 * connected to, or does nothing when it never connected.
 */
module GraphMirror {
  import opened Common

  /** A property value as the driver sends it: text, integer, list of text, or null. */
  datatype Value = VText(s: string) | VInt(i: int) | VTextList(items: seq<string>) | VNull

  /** The properties of one node, by name. A property that is not set is absent. */
  type Props = map<string, Value>

  /**
   * The database: User nodes by `email` (at most one per email), Appointment
   * nodes by `id` (at most one per id), and HAS_APPOINTMENT edges as
   * (user email, appointment id) pairs (at most one per pair).
   */
  datatype Graph = Graph(users: map<string, Props>, appointments: map<string, Props>, links: set<(string, string)>)

  /** Every edge joins existing nodes, and every Appointment node has an edge from some User. */
  predicate WellLinked(g: Graph)
  {
    && (forall l :: l in g.links ==> l.0 in g.users && l.1 in g.appointments)
    && (forall a :: a in g.appointments ==> exists u :: u in g.users && (u, a) in g.links)
  }

  // ---------------------------------------------------------------- Cypher semantics

  /** `SET n += $updates` on a node with properties `props`. Null values remove the property. */
  function SetAdd(props: Props, updates: Props): (r: Props)
    ensures forall k :: k in updates && updates[k] != VNull ==> k in r && r[k] == updates[k]
    ensures forall k :: k in updates && updates[k] == VNull ==> k !in r
    ensures forall k :: k !in updates ==> (k in r <==> k in props)
    ensures forall k :: k !in updates && k in props ==> r[k] == props[k]
  {
    map k | k in props.Keys + updates.Keys && !(k in updates && updates[k] == VNull) ::
      if k in updates then updates[k] else props[k]
  }

  /** A property given as an optional value: null when absent. */
  function TextOrNull(v: Option<string>): Value
  {
    if v.Some? then VText(v.value) else VNull
  }

  /**
   * The `create_user_node` statement: `MERGE (u:User {email})` with
   * `ON CREATE SET u.username, u.fullName, u.createdAt = timestamp()`.
   */
  function MergeUser(g: Graph, email: string, username: string, fullName: string, now: Time): (r: Graph)
    ensures email in r.users
    ensures email in g.users ==> r == g
    ensures email !in g.users ==>
      r.users == g.users[email := map["username" := VText(username), "fullName" := VText(fullName), "createdAt" := VInt(now)]]
      && r.appointments == g.appointments && r.links == g.links
  {
    if email in g.users then g
    else
      var created := SetAdd(map[], map["username" := VText(username), "fullName" := VText(fullName), "createdAt" := VInt(now)]);
      assert created == map["username" := VText(username), "fullName" := VText(fullName), "createdAt" := VInt(now)];
      g.(users := g.users[email := created])
  }

  /** The `update_user_node_properties` statement: `MERGE (u:User {email}) SET u += $props`. */
  function MergeUserSetProps(g: Graph, email: string, props: Props): (r: Graph)
    ensures email in r.users
    ensures r.users[email] == SetAdd(if email in g.users then g.users[email] else map[], props)
    ensures forall e :: e != email ==> (e in r.users <==> e in g.users)
    ensures forall e :: e != email && e in g.users ==> r.users[e] == g.users[e]
    ensures r.appointments == g.appointments && r.links == g.links
  {
    var current := if email in g.users then g.users[email] else map[];
    g.(users := g.users[email := SetAdd(current, props)])
  }

  /**
   * The `create_appointment_node_and_link_to_user` statement:
   * `MATCH (u:User {email})`, then `MERGE (a:Appointment {id})` with
   * `ON CREATE SET a.doctor, a.specialization, a.appointmentTime, a.createdAt`,
   * then `MERGE (u)-[:HAS_APPOINTMENT]->(a)`.
   */
  function MergeAppointment(g: Graph, email: string, id: string, doctor: Option<string>,
                            specialization: Option<string>, appointmentTime: Time, now: Time): (r: Graph)
    ensures email !in g.users ==> r == g
    ensures email in g.users ==>
      && r.users == g.users
      && id in r.appointments
      && r.links == g.links + {(email, id)}
      && (id in g.appointments ==> r.appointments == g.appointments)
      && (id !in g.appointments ==> r.appointments == g.appointments[id := AppointmentProps(doctor, specialization, appointmentTime, now)])
  {
    if email !in g.users then g
    else
      var appointments :=
        if id in g.appointments then g.appointments
        else g.appointments[id := AppointmentProps(doctor, specialization, appointmentTime, now)];
      g.(appointments := appointments, links := g.links + {(email, id)})
  }

  /** The properties `ON CREATE SET` gives a new Appointment node; a null doctor or specialization is left unset. */
  function AppointmentProps(doctor: Option<string>, specialization: Option<string>, appointmentTime: Time, now: Time): (p: Props)
    ensures p.Keys <= {"doctor", "specialization", "appointmentTime", "createdAt"}
    ensures "appointmentTime" in p && p["appointmentTime"] == VInt(appointmentTime)
    ensures "createdAt" in p && p["createdAt"] == VInt(now)
    ensures "doctor" in p <==> doctor.Some?
    ensures doctor.Some? ==> p["doctor"] == VText(doctor.value)
    ensures "specialization" in p <==> specialization.Some?
    ensures specialization.Some? ==> p["specialization"] == VText(specialization.value)
  {
    SetAdd(map[], map["doctor" := TextOrNull(doctor), "specialization" := TextOrNull(specialization),
                      "appointmentTime" := VInt(appointmentTime), "createdAt" := VInt(now)])
  }

  /** The three statements the application sends. */
  datatype Query =
    | CreateUser(email: string, username: string, fullName: string)
    | UpdateUser(email: string, props: Props)
    | LinkAppointment(email: string, id: string, doctor: Option<string>, specialization: Option<string>, appointmentTime: Time)

  /** The effect of running a statement at clock reading `now` (`timestamp()`). */
  function Run(g: Graph, q: Query, now: Time): Graph
  {
    match q
    case CreateUser(email, username, fullName) => MergeUser(g, email, username, fullName, now)
    case UpdateUser(email, props) => MergeUserSetProps(g, email, props)
    case LinkAppointment(email, id, doctor, specialization, at) => MergeAppointment(g, email, id, doctor, specialization, at, now)
  }

  // ---------------------------------------------------------------- properties of the statements

  /** Repeating `create_user_node` for an email changes nothing, whatever names the repeat carries. */
  lemma MergeUserRepeat(g: Graph, email: string, username: string, fullName: string, now: Time,
                        username2: string, fullName2: string, now2: Time)
    ensures var once := MergeUser(g, email, username, fullName, now);
      MergeUser(once, email, username2, fullName2, now2) == once
  {
  }

  /** Repeating the appointment statement changes nothing, whatever values the repeat carries. */
  lemma MergeAppointmentRepeat(g: Graph, email: string, id: string, doctor: Option<string>, specialization: Option<string>,
                               at: Time, now: Time, doctor2: Option<string>, specialization2: Option<string>, at2: Time, now2: Time)
    ensures var once := MergeAppointment(g, email, id, doctor, specialization, at, now);
      MergeAppointment(once, email, id, doctor2, specialization2, at2, now2) == once
  {
    var once := MergeAppointment(g, email, id, doctor, specialization, at, now);
    if email in g.users {
      assert once.links + {(email, id)} == once.links;
    }
  }

  /** `SET u += $props` twice with the same properties is the same as once. */
  lemma MergeUserSetPropsRepeat(g: Graph, email: string, props: Props)
    ensures var once := MergeUserSetProps(g, email, props);
      MergeUserSetProps(once, email, props) == once
  {
    var once := MergeUserSetProps(g, email, props);
    var twice := MergeUserSetProps(once, email, props);
    assert twice.users[email] == once.users[email];
    assert twice.users == once.users;
  }

  /** Every statement keeps edges between existing nodes, and keeps every Appointment owned by a User. */
  lemma RunKeepsWellLinked(g: Graph, q: Query, now: Time)
    requires WellLinked(g)
    ensures WellLinked(Run(g, q, now))
  {
    var r := Run(g, q, now);
    match q
    case CreateUser(email, username, fullName) =>
    case UpdateUser(email, props) =>
    case LinkAppointment(email, id, doctor, specialization, at) =>
      if email in g.users {
        forall a | a in r.appointments
          ensures exists u :: u in r.users && (u, a) in r.links
        {
          if a == id {
            assert email in r.users && (email, id) in r.links;
          } else {
            assert a in g.appointments;
            var u :| u in g.users && (u, a) in g.links;
            assert u in r.users && (u, a) in r.links;
          }
        }
      }
  }

  // ---------------------------------------------------------------- the driver

  /** What `execute_query` gives back: None without a driver, the records, or an exception. */
  datatype QueryOutcome = NoDriver | Records(rows: seq<Props>) | Raised

  /**
   * `Neo4jDriver`. `connected` is false when connecting failed and the driver
   * was set to None; `database` is the graph on the server.
   */
  class Neo4jDriver {
    var connected: bool
    var database: Graph

    /** `__init__`: `reachable` says whether the connectivity check succeeded. */
    constructor (reachable: bool, database: Graph)
      ensures connected == reachable && this.database == database
    {
      connected := reachable;
      this.database := database;
    }

    /**
     * `execute_query`. `fails` says whether the session raises (the server
     * went away, the statement was refused); a raised statement leaves the
     * database as it was. None of the three statements returns records.
     */
    method ExecuteQuery(q: Query, now: Time, fails: bool) returns (r: QueryOutcome)
      modifies this
      ensures connected == old(connected)
      ensures !connected ==> r == NoDriver && database == old(database)
      ensures connected && fails ==> r == Raised && database == old(database)
      ensures connected && !fails ==> r == Records([]) && database == Run(old(database), q, now)
    {
      if !connected {
        return NoDriver;
      }
      if fails {
        return Raised;
      }
      database := Run(database, q, now);
      r := Records([]);
    }
  }

  /** The database after a statement sent through `driver`: changed only when it ran. */
  function After(connected: bool, fails: bool, g: Graph, q: Query, now: Time): Graph
  {
    if connected && !fails then Run(g, q, now) else g
  }

  /** `create_user_node`. Returns whether the statement raised (the exception reaches the caller). */
  method CreateUserNode(driver: Neo4jDriver, email: string, fullName: string, username: string, now: Time, fails: bool)
    returns (raised: bool)
    modifies driver
    ensures driver.connected == old(driver.connected)
    ensures raised <==> driver.connected && fails
    ensures driver.database == After(driver.connected, fails, old(driver.database), CreateUser(email, username, fullName), now)
  {
    var outcome := driver.ExecuteQuery(CreateUser(email, username, fullName), now, fails);
    raised := outcome.Raised?;
  }

  /** `update_user_node_properties`: no statement at all for empty properties. */
  method UpdateUserNodeProperties(driver: Neo4jDriver, email: string, props: Props, now: Time, fails: bool)
    returns (raised: bool)
    modifies driver
    ensures driver.connected == old(driver.connected)
    ensures props == map[] ==> !raised && driver.database == old(driver.database)
    ensures props != map[] ==> (raised <==> driver.connected && fails)
    ensures props != map[] ==> driver.database == After(driver.connected, fails, old(driver.database), UpdateUser(email, props), now)
  {
    if props == map[] {
      return false;
    }
    var outcome := driver.ExecuteQuery(UpdateUser(email, props), now, fails);
    raised := outcome.Raised?;
  }

  /** `create_appointment_node_and_link_to_user`. */
  method CreateAppointmentNodeAndLinkToUser(driver: Neo4jDriver, email: string, id: string, doctor: Option<string>,
                                            specialization: Option<string>, appointmentTime: Time, now: Time, fails: bool)
    returns (raised: bool)
    modifies driver
    ensures driver.connected == old(driver.connected)
    ensures raised <==> driver.connected && fails
    ensures driver.database ==
      After(driver.connected, fails, old(driver.database), LinkAppointment(email, id, doctor, specialization, appointmentTime), now)
  {
    var outcome := driver.ExecuteQuery(LinkAppointment(email, id, doctor, specialization, appointmentTime), now, fails);
    raised := outcome.Raised?;
  }
}
