/** The `appointment` and `invitation` tables and the repository functions over them
    (`web_server::repository`). The database engine is abstracted to two sequences of
    rows in storage order; a database failure is an input (`fault`). */
module Store {
  import opened Wrappers
  import opened Ints
  import opened Chrono
  import opened Ids
  import opened Uris
  import opened Domain
  import opened Errors

  /** The `WHERE id = $1` clause, or no clause. */
  predicate Admits(filter: Option<Uuid>, id: Uuid) {
    filter.None? || filter.value == id
  }

  /** The rows a `SELECT … [WHERE id = $1]` returns, in storage order. */
  function Where<R>(rows: seq<R>, key: R -> Uuid, filter: Option<Uuid>): (r: seq<R>)
    ensures |r| <= |rows|
    ensures forall x :: x in r ==> x in rows && Admits(filter, key(x))
    ensures forall x :: x in rows && Admits(filter, key(x)) ==> x in r
    ensures filter.None? ==> r == rows
  {
    if rows == [] then []
    else (if Admits(filter, key(rows[0])) then [rows[0]] else []) + Where(rows[1..], key, filter)
  }

  /** Each selected row is returned as many times as it is stored, and nothing else is. */
  lemma {:induction false} WhereCounts<R>(rows: seq<R>, key: R -> Uuid, filter: Option<Uuid>)
    ensures multiset(Where(rows, key, filter)) <= multiset(rows)
    ensures forall x :: x in rows && Admits(filter, key(x)) ==>
              multiset(Where(rows, key, filter))[x] == multiset(rows)[x]
    decreases |rows|
  {
    if rows != [] {
      assert rows == [rows[0]] + rows[1..];
      WhereCounts(rows[1..], key, filter);
    }
  }

  /** The selection keeps storage order: a row added at the end of the table is selected
      after every earlier one, exactly when it passes the filter. */
  lemma {:induction false} WhereSnoc<R>(rows: seq<R>, x: R, key: R -> Uuid, filter: Option<Uuid>)
    ensures Where(rows + [x], key, filter)
            == Where(rows, key, filter) + (if Admits(filter, key(x)) then [x] else [])
    decreases |rows|
  {
    if rows != [] {
      assert (rows + [x])[1..] == rows[1..] + [x];
      WhereSnoc(rows[1..], x, key, filter);
    }
  }

  /** Index of the first row whose key is `id`, if any. */
  function FirstIndex<R>(rows: seq<R>, key: R -> Uuid, id: Uuid): (r: Option<nat>)
    ensures r.None? <==> forall i :: 0 <= i < |rows| ==> key(rows[i]) != id
    ensures r.Some? ==> r.value < |rows| && key(rows[r.value]) == id
                        && forall i :: 0 <= i < r.value ==> key(rows[i]) != id
  {
    if rows == [] then None
    else if key(rows[0]) == id then Some(0)
    else match FirstIndex(rows[1..], key, id)
         case None => None
         case Some(k) => Some(k + 1)
  }

  /** The first row a `WHERE id = $1` selects is the first row with that id. */
  lemma {:induction false} WhereFirst<R>(rows: seq<R>, key: R -> Uuid, id: Uuid)
    requires FirstIndex(rows, key, id).Some?
    ensures Where(rows, key, Some(id)) != []
    ensures Where(rows, key, Some(id))[0] == rows[FirstIndex(rows, key, id).value]
  {
    if key(rows[0]) != id {
      WhereFirst(rows[1..], key, id);
    }
  }

  /** A `WHERE id = $1` that matches no row returns nothing (and no error). */
  lemma {:induction false} WhereAbsent<R>(rows: seq<R>, key: R -> Uuid, id: Uuid)
    requires FirstIndex(rows, key, id).None?
    ensures Where(rows, key, Some(id)) == []
  {
    if rows != [] {
      WhereAbsent(rows[1..], key, id);
    }
  }

  function AppointmentKey(row: DBAppointment): Uuid { row.id }
  function InvitationKey(row: DBInvitation): Uuid { row.id }

  /** The row `preserve_new_appointment` inserts: the link as its string form and the
      duration as `as_secs() as i64`. */
  function AppointmentRow(n: NewAppointment, id: Uuid): DBAppointment {
    var link := match n.link case None => None case Some(u) => Some(u.href);
    DBAppointment(id, n.title, n.description, n.format, n.address, link, n.date,
                  U64AsI64(n.duration.secs))
  }

  /** The row `preserve_new_invitations` inserts for one draft; `used` takes the column default. */
  function InvitationRow(d: NewInvitation, usedDefault: bool): DBInvitation {
    DBInvitation(d.id, d.appointmentId, usedDefault, IntoInner(d.shortUrl))
  }

  /** The rows of one batch insert, in draft order. */
  function InvitationRows(drafts: seq<NewInvitation>, usedDefault: bool): (r: seq<DBInvitation>)
    ensures |r| == |drafts|
    ensures forall i :: 0 <= i < |drafts| ==>
              && r[i].id == drafts[i].id
              && r[i].appointmentId == drafts[i].appointmentId
              && r[i].shortUrl == IntoInner(drafts[i].shortUrl)
              && r[i].used == usedDefault
  {
    seq(|drafts|, i requires 0 <= i < |drafts| => InvitationRow(drafts[i], usedDefault))
  }

  /** The URL library reads back what it writes: `Url::parse(u.as_str()) == Ok(u)`. */
  predicate Reparses(u: Url, parseUrl: UrlParser) {
    parseUrl(u.href) == Some(u)
  }

  /** Storing an appointment and loading it back gives the same appointment under the
      new id, except that the duration keeps only its whole seconds (for every u64). */
  lemma AppointmentStoreLoad(n: NewAppointment, id: Uuid, parseUrl: UrlParser)
    requires n.link.Some? ==> Reparses(n.link.value, parseUrl)
    ensures LinkParses(AppointmentRow(n, id).link, parseUrl)
    ensures AppointmentFromDb(AppointmentRow(n, id), parseUrl)
            == Appointment(id, n.title, n.description, n.format, n.address, n.link, n.date,
                           FromSecs(n.duration.secs))
  {
    U64RoundTrip(n.duration.secs);
  }

  /** Storing a draft and loading it back gives the draft's fields and the column default. */
  lemma InvitationStoreLoad(d: NewInvitation, usedDefault: bool, parseUrl: UrlParser)
    requires Valid(d.shortUrl, parseUrl)
    ensures ShortUrlParses(InvitationRow(d, usedDefault), parseUrl)
    ensures InvitationFromDb(InvitationRow(d, usedDefault), parseUrl)
            == Invitation(d.id, d.appointmentId, usedDefault, d.shortUrl)
  {
  }

  predicate UniqueIds(rows: seq<DBAppointment>) {
    forall i, j :: 0 <= i < j < |rows| ==> rows[i].id != rows[j].id
  }

  predicate HasId(rows: seq<DBAppointment>, id: Uuid) {
    exists i :: 0 <= i < |rows| && rows[i].id == id
  }

  predicate ShortUrlsParse(rows: seq<DBInvitation>, parseUrl: UrlParser) {
    forall i :: 0 <= i < |rows| ==> ShortUrlParses(rows[i], parseUrl)
  }

  predicate LinksParse(rows: seq<DBAppointment>, parseUrl: UrlParser) {
    forall i :: 0 <= i < |rows| ==> LinkParses(rows[i].link, parseUrl)
  }

  /** `records.into_iter().map(Invitation::from).collect()` */
  function InvitationsFromDb(rows: seq<DBInvitation>, parseUrl: UrlParser): (r: seq<Invitation>)
    requires ShortUrlsParse(rows, parseUrl)
    ensures |r| == |rows|
    ensures forall i :: 0 <= i < |rows| ==> r[i] == InvitationFromDb(rows[i], parseUrl)
  {
    if rows == [] then []
    else [InvitationFromDb(rows[0], parseUrl)] + InvitationsFromDb(rows[1..], parseUrl)
  }

  lemma WhereKeepsShortUrls(rows: seq<DBInvitation>, filter: Option<Uuid>, parseUrl: UrlParser)
    requires ShortUrlsParse(rows, parseUrl)
    ensures ShortUrlsParse(Where(rows, InvitationKey, filter), parseUrl)
  {
    var sel := Where(rows, InvitationKey, filter);
    forall i | 0 <= i < |sel| ensures ShortUrlParses(sel[i], parseUrl) {
      assert sel[i] in rows;
    }
  }

  /** What `preserve_new_invitations` sends for an empty batch: `push_values` adds no
      tuple and its debug assertion fails. */
  const EMPTY_VALUES := "No value being pushed. QueryBuilder may not build correct sql query!"

  /** How the three steps of a write transaction (begin, statement, commit) fare. */
  datatype TxFault = NoFault | BeginFails | StatementFails(detail: string) | CommitFails

  /** The anyhow context of a failed `pool.begin()`. */
  const POOL_CONTEXT := "Failed to acquire a Postgres connection from the pool"
  /** The anyhow context both handlers give a failed commit. */
  const COMMIT_CONTEXT := "Failed to commit SQL transaction to store a new course."

  const INSERT_APPOINTMENT_CONTEXT := "Failed to insert a new appointment into the database."

  class Database {
    /** The `appointment` table, in storage order. */
    var appointments: seq<DBAppointment>
    /** The `invitation` table, in storage order. */
    var invitations: seq<DBInvitation>
    /** The schema's default for `invitation.used`, which the inserts leave to the table. */
    const usedDefault: bool
    /** The tables as the last transaction found them when it began. */
    var savedAppointments: seq<DBAppointment>
    var savedInvitations: seq<DBInvitation>

    /** Appointment ids are assigned by the database and never repeat. */
    ghost predicate Valid()
      reads this
    {
      UniqueIds(appointments) && UniqueIds(savedAppointments)
    }

    /** What a rollback returns to. */
    function Snapshot(): (seq<DBAppointment>, seq<DBInvitation>)
      reads this
    {
      (savedAppointments, savedInvitations)
    }

    constructor (usedDefault: bool)
      ensures Valid()
      ensures appointments == [] && invitations == [] && this.usedDefault == usedDefault
    {
      appointments, invitations := [], [];
      savedAppointments, savedInvitations := [], [];
      this.usedDefault := usedDefault;
    }

    /** `open_transaction` that gets a connection: the transaction starts from the
        tables as they are now. */
    method Begin()
      modifies this
      ensures appointments == old(appointments) && invitations == old(invitations)
      ensures savedAppointments == appointments && savedInvitations == invitations
      ensures old(Valid()) ==> Valid()
    {
      savedAppointments, savedInvitations := appointments, invitations;
    }

    /** A transaction that is dropped without a commit: the tables go back to what they
        were when it began. */
    method RollBack()
      modifies this
      ensures appointments == old(savedAppointments) && invitations == old(savedInvitations)
      ensures Snapshot() == old(Snapshot())
      ensures old(Valid()) ==> Valid()
    {
      appointments, invitations := savedAppointments, savedInvitations;
    }

    /** `preserve_new_appointment`: one INSERT … RETURNING id. The id the database
        assigns is `freshId`, not yet in the table. */
    method PreserveNewAppointment(n: NewAppointment, freshId: Uuid, fault: Option<string>)
      returns (r: Result<Uuid, CustomError>)
      requires Valid()
      requires !HasId(appointments, freshId)
      modifies this
      ensures Valid() && invitations == old(invitations) && Snapshot() == old(Snapshot())
      ensures fault.Some? ==> r == Err(Anyhow(INSERT_APPOINTMENT_CONTEXT))
                              && appointments == old(appointments)
      ensures fault.None? ==> r == Ok(freshId)
                              && appointments == old(appointments) + [AppointmentRow(n, freshId)]
    {
      if fault.Some? {
        return Err(Anyhow(INSERT_APPOINTMENT_CONTEXT));
      }
      appointments := appointments + [AppointmentRow(n, freshId)];
      r := Ok(freshId);
    }

    /** `get_stored_appointments`: the selected rows, each converted, in storage order. */
    method GetStoredAppointments(filter: Option<Uuid>, parseUrl: UrlParser)
      returns (result: seq<Appointment>)
      requires LinksParse(Where(appointments, AppointmentKey, filter), parseUrl)
      ensures |result| == |Where(appointments, AppointmentKey, filter)|
      ensures forall i :: 0 <= i < |result| ==>
                result[i] == AppointmentFromDb(Where(appointments, AppointmentKey, filter)[i], parseUrl)
    {
      var records := Where(appointments, AppointmentKey, filter);
      result := [];
      for i := 0 to |records|
        invariant |result| == i
        invariant forall k :: 0 <= k < i ==> result[k] == AppointmentFromDb(records[k], parseUrl)
      {
        result := result + [AppointmentFromDb(records[i], parseUrl)];
      }
    }

    /** `delete_stored_appointment`: `DELETE FROM appointment WHERE id = $1`, reporting
        whether any row was affected. */
    method DeleteStoredAppointment(id: Uuid, fault: Option<string>)
      returns (r: Result<bool, CustomError>)
      requires Valid()
      modifies this
      ensures Valid() && invitations == old(invitations) && Snapshot() == old(Snapshot())
      ensures fault.Some? ==> r == Err(Sqlx(fault.value)) && appointments == old(appointments)
      ensures fault.None? ==> r == Ok(HasId(old(appointments), id))
      ensures fault.None? ==> appointments == Kept(old(appointments), id)
    {
      if fault.Some? {
        return Err(Sqlx(fault.value));
      }
      var rows := appointments;
      var kept: seq<DBAppointment> := [];
      var affected := 0;
      for i := 0 to |rows|
        invariant kept == Kept(rows[..i], id)
        invariant appointments == rows && invitations == old(invitations)
        invariant Snapshot() == old(Snapshot())
        invariant affected > 0 <==> HasId(rows[..i], id)
      {
        assert rows[..i + 1] == rows[..i] + [rows[i]];
        KeptAppend(rows[..i], rows[i], id);
        if rows[i].id == id {
          affected := affected + 1;
        } else {
          kept := kept + [rows[i]];
        }
      }
      assert rows[..|rows|] == rows;
      KeptUnique(rows, id);
      appointments := kept;
      r := Ok(affected > 0);
    }

    /** `preserve_new_invitations`: one INSERT with one tuple per draft, all or nothing. */
    method PreserveNewInvitations(drafts: seq<NewInvitation>, fault: Option<string>)
      returns (r: Reply<()>)
      modifies this
      ensures appointments == old(appointments) && Snapshot() == old(Snapshot())
      ensures drafts == [] ==> r == Panicked(EMPTY_VALUES) && invitations == old(invitations)
      ensures drafts != [] && fault.Some? ==> r == Failed(Sqlx(fault.value))
                                              && invitations == old(invitations)
      ensures drafts != [] && fault.None? ==> r == Done(())
      ensures r.Done? ==> invitations == old(invitations) + InvitationRows(drafts, usedDefault)
    {
      if drafts == [] {
        return Panicked(EMPTY_VALUES);
      }
      var values: seq<DBInvitation> := [];
      for i := 0 to |drafts|
        invariant |values| == i
        invariant appointments == old(appointments) && invitations == old(invitations)
        invariant Snapshot() == old(Snapshot())
        invariant forall k :: 0 <= k < i ==> values[k] == InvitationRow(drafts[k], usedDefault)
      {
        values := values + [InvitationRow(drafts[i], usedDefault)];
      }
      if fault.Some? {
        return Failed(Sqlx(fault.value));
      }
      assert values == InvitationRows(drafts, usedDefault);
      invitations := invitations + values;
      r := Done(());
    }

    /** `get_stored_invitations` of the repository: the selected rows, converted. The
        filter is on the invitation's own `id`, whatever the parameter's name says. */
    function StoredInvitations(filter: Option<Uuid>, parseUrl: UrlParser): (r: seq<Invitation>)
      reads this
      requires ShortUrlsParse(Where(invitations, InvitationKey, filter), parseUrl)
    {
      InvitationsFromDb(Where(invitations, InvitationKey, filter), parseUrl)
    }
  }

  /** The rows a delete by `id` keeps. */
  function Kept(rows: seq<DBAppointment>, id: Uuid): seq<DBAppointment> {
    if rows == [] then []
    else Kept(rows[..|rows| - 1], id)
         + (if rows[|rows| - 1].id == id then [] else [rows[|rows| - 1]])
  }

  /** A delete removes exactly the rows with that id and keeps the others. */
  lemma {:induction false} KeptMembers(rows: seq<DBAppointment>, id: Uuid)
    ensures |Kept(rows, id)| <= |rows|
    ensures forall x :: x in Kept(rows, id) <==> x in rows && x.id != id
  {
    if rows != [] {
      var init := rows[..|rows| - 1];
      KeptMembers(init, id);
      assert rows == init + [rows[|rows| - 1]];
    }
  }

  /** A delete applied to a table with unique ids leaves them unique. */
  lemma {:induction false} KeptUnique(rows: seq<DBAppointment>, id: Uuid)
    requires UniqueIds(rows)
    ensures UniqueIds(Kept(rows, id))
  {
    if rows != [] {
      var init := rows[..|rows| - 1];
      var last := rows[|rows| - 1];
      assert UniqueIds(init);
      KeptUnique(init, id);
      KeptMembers(init, id);
      var k := Kept(rows, id);
      if last.id != id {
        forall i, j | 0 <= i < j < |k| ensures k[i].id != k[j].id {
          if j == |k| - 1 {
            assert k[i] in Kept(init, id);
            var m :| 0 <= m < |init| && init[m] == k[i];
            assert rows[m] == k[i];
          } else {
            assert k[i] == Kept(init, id)[i] && k[j] == Kept(init, id)[j];
          }
        }
      }
    }
  }

  lemma KeptAppend(rows: seq<DBAppointment>, row: DBAppointment, id: Uuid)
    ensures Kept(rows + [row], id) == Kept(rows, id) + (if row.id == id then [] else [row])
  {
    assert (rows + [row])[..|rows|] == rows;
  }

  /** The repository lookup of invitations: every row without a filter, and with
      `Some(x)` exactly the rows whose own `id` is x, so no match is an empty vector. */
  lemma StoredInvitationsSpec(db: Database, filter: Option<Uuid>, parseUrl: UrlParser)
    requires ShortUrlsParse(Where(db.invitations, InvitationKey, filter), parseUrl)
    ensures var r := db.StoredInvitations(filter, parseUrl);
      && (forall i :: 0 <= i < |r| ==> Admits(filter, r[i].id))
      && (forall row :: row in db.invitations && Admits(filter, row.id) ==>
            ShortUrlParses(row, parseUrl) && InvitationFromDb(row, parseUrl) in r)
      && (filter.None? ==> |r| == |db.invitations|)
      && (filter.Some? && FirstIndex(db.invitations, InvitationKey, filter.value).None? ==> r == [])
  {
    var sel := Where(db.invitations, InvitationKey, filter);
    var r := db.StoredInvitations(filter, parseUrl);
    forall i | 0 <= i < |r| ensures Admits(filter, r[i].id) {
      assert sel[i] in sel;
    }
    forall row | row in db.invitations && Admits(filter, row.id)
      ensures ShortUrlParses(row, parseUrl) && InvitationFromDb(row, parseUrl) in r
    {
      assert row in sel;
      var i :| 0 <= i < |sel| && sel[i] == row;
      assert r[i] == InvitationFromDb(row, parseUrl);
    }
    if filter.Some? && FirstIndex(db.invitations, InvitationKey, filter.value).None? {
      WhereAbsent(db.invitations, InvitationKey, filter.value);
    }
  }

  /** The listed invitations come one per selected row, in storage order: the i-th is
      the conversion of the i-th stored row that passes the filter. */
  lemma StoredInvitationsInOrder(db: Database, filter: Option<Uuid>, parseUrl: UrlParser)
    requires ShortUrlsParse(Where(db.invitations, InvitationKey, filter), parseUrl)
    ensures var r := db.StoredInvitations(filter, parseUrl);
      var sel := Where(db.invitations, InvitationKey, filter);
      && |r| == |sel|
      && (forall i :: 0 <= i < |r| ==>
            && sel[i] in db.invitations && Admits(filter, sel[i].id)
            && r[i] == InvitationFromDb(sel[i], parseUrl))
  {
    var sel := Where(db.invitations, InvitationKey, filter);
    forall i | 0 <= i < |sel| ensures sel[i] in db.invitations && Admits(filter, sel[i].id) {
      assert sel[i] in sel;
    }
  }
}
