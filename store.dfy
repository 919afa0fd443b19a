/**
 * The PostgreSQL database that main.go queries, as four tables of rows.
 * Each SQL statement of `getPackageDetailsInDB` becomes a pure selection.
 * The integer columns (the ids and TrackingDetails.location_id) are taken
 * never to be NULL; the text columns a `Scan` reads into a Go `string` may
 * be NULL (`None`), which makes that `Scan` fail.
 */
module Store {
  import opened Wrappers
  import opened Modal

  /** Why a query or a `Scan` failed. */
  datatype StoreError =
    | ErrNoRows                      // sql.ErrNoRows: QueryRow matched nothing
    | ErrNullColumn(column: string)  // NULL scanned into a Go string
    | ErrConnection                  // the server could not be reached

  /** Packages(sno, tracking_status, estimated_delivery) */
  datatype PackageRow = PackageRow(sno: string, trackingStatus: Option<string>, estimatedDelivery: Option<string>)

  /** TrackingDetails(id, sno, date, time, status, location_id) */
  datatype DetailRow = DetailRow(id: Int64, sno: string, date: Option<string>, time: Option<string>, status: Option<string>, locationId: Int64)

  /** Recipients(id, sno, name, address, phone) */
  datatype RecipientRow = RecipientRow(id: Int64, sno: string, name: Option<string>, address: Option<string>, phone: Option<string>)

  /** Locations(location_id, title, city, address) */
  datatype LocationRow = LocationRow(locationId: Int64, title: Option<string>, city: Option<string>, address: Option<string>)

  /** The four statements getPackageDetailsInDB sends. */
  datatype Query = PackageQuery | DetailsQuery | RecipientQuery | LocationQuery

  /**
   * The database behind the `*sql.DB` handle; rows are in the order the
   * server returns them. Connection trouble is an input: the statements that
   * get no answer.
   */
  datatype Db = Db(
    failing: set<Query>,
    packages: seq<PackageRow>,
    trackingDetails: seq<DetailRow>,
    recipients: seq<RecipientRow>,
    locations: seq<LocationRow>)

  datatype Result<T> = Ok(value: T) | Err(error: StoreError)

  // ---------------------------------------------------------------------------
  // Chronological order of events: (date, time), each compared as text

  /** `a` sorts at or before `b` (lexicographic order by code point). */
  predicate TextLe(a: string, b: string)
  {
    |a| == 0 || (|b| > 0 && (a[0] < b[0] || (a[0] == b[0] && TextLe(a[1..], b[1..]))))
  }

  lemma {:induction false} TextLeReflexive(a: string)
    ensures TextLe(a, a)
  {
    if |a| > 0 {
      TextLeReflexive(a[1..]);
    }
  }

  lemma {:induction false} TextLeTotal(a: string, b: string)
    ensures TextLe(a, b) || TextLe(b, a)
  {
    if |a| > 0 && |b| > 0 && a[0] == b[0] {
      TextLeTotal(a[1..], b[1..]);
    }
  }

  lemma {:induction false} TextLeAntisymmetric(a: string, b: string)
    requires TextLe(a, b) && TextLe(b, a)
    ensures a == b
  {
    if |a| > 0 && |b| > 0 {
      TextLeAntisymmetric(a[1..], b[1..]);
      assert a == [a[0]] + a[1..] && b == [b[0]] + b[1..];
    }
  }

  lemma {:induction false} TextLeTransitive(a: string, b: string, c: string)
    requires TextLe(a, b) && TextLe(b, c)
    ensures TextLe(a, c)
  {
    if |a| > 0 && |b| > 0 && |c| > 0 && a[0] == b[0] && b[0] == c[0] {
      TextLeTransitive(a[1..], b[1..], c[1..]);
    }
  }

  /** Texts that agree up to position `i` and differ there are ordered by that character. */
  lemma {:induction false} TextLeFirstDifference(a: string, b: string, i: nat)
    requires i < |a| && i < |b| && a[..i] == b[..i] && a[i] < b[i]
    ensures TextLe(a, b) && !TextLe(b, a)
  {
    if i > 0 {
      assert a[0] == a[..i][0] == b[..i][0] == b[0];
      assert a[1..][..i - 1] == a[..i][1..] == b[..i][1..] == b[1..][..i - 1];
      TextLeFirstDifference(a[1..], b[1..], i - 1);
    }
  }

  /**
   * The order PostgreSQL sorts a nullable text column in: text order, with
   * NULL above every value (so `DESC` puts NULL first).
   */
  predicate ColumnLe(a: Option<string>, b: Option<string>)
  {
    b.None? || (a.Some? && TextLe(a.value, b.value))
  }

  lemma ColumnLeReflexive(a: Option<string>)
    ensures ColumnLe(a, a)
  {
    if a.Some? {
      TextLeReflexive(a.value);
    }
  }

  lemma ColumnLeTotal(a: Option<string>, b: Option<string>)
    ensures ColumnLe(a, b) || ColumnLe(b, a)
  {
    if a.Some? && b.Some? {
      TextLeTotal(a.value, b.value);
    }
  }

  lemma ColumnLeAntisymmetric(a: Option<string>, b: Option<string>)
    requires ColumnLe(a, b) && ColumnLe(b, a)
    ensures a == b
  {
    if a.Some? && b.Some? {
      TextLeAntisymmetric(a.value, b.value);
    }
  }

  lemma ColumnLeTransitive(a: Option<string>, b: Option<string>, c: Option<string>)
    requires ColumnLe(a, b) && ColumnLe(b, c)
    ensures ColumnLe(a, c)
  {
    if a.Some? && b.Some? && c.Some? {
      TextLeTransitive(a.value, b.value, c.value);
    }
  }

  /** `e` happened no later than `f`: the order of `ORDER BY date, time`. */
  predicate NotLater(e: DetailRow, f: DetailRow)
  {
    ColumnLe(e.date, f.date) && (e.date == f.date ==> ColumnLe(e.time, f.time))
  }

  lemma NotLaterReflexive(e: DetailRow)
    ensures NotLater(e, e)
  {
    ColumnLeReflexive(e.date);
    ColumnLeReflexive(e.time);
  }

  lemma NotLaterTotal(e: DetailRow, f: DetailRow)
    ensures NotLater(e, f) || NotLater(f, e)
  {
    ColumnLeTotal(e.date, f.date);
    ColumnLeTotal(e.time, f.time);
  }

  lemma NotLaterTransitive(e: DetailRow, f: DetailRow, g: DetailRow)
    requires NotLater(e, f) && NotLater(f, g)
    ensures NotLater(e, g)
  {
    ColumnLeTransitive(e.date, f.date, g.date);
    if e.date == g.date {
      ColumnLeAntisymmetric(e.date, f.date);
      ColumnLeTransitive(e.time, f.time, g.time);
    }
  }

  /**
   * The row `ORDER BY date DESC, time DESC LIMIT 1` returns: a latest event.
   * A NULL date or time sorts first under `DESC`. SQL leaves ties open;
   * this model returns the first latest row.
   */
  function LatestDetail(rows: seq<DetailRow>): (r: Option<DetailRow>)
    ensures r.None? <==> rows == []
    ensures r.Some? ==> r.value in rows
    ensures r.Some? ==> forall e :: e in rows ==> NotLater(e, r.value)
  {
    if rows == [] then None
    else
      match LatestDetail(rows[1..])
      case None =>
        NotLaterReflexive(rows[0]);
        assert rows == [rows[0]];
        Some(rows[0])
      case Some(m) =>
        NotLaterTotal(m, rows[0]);
        if NotLater(m, rows[0]) then
          assert forall e :: e in rows[1..] ==> NotLater(e, rows[0]) by {
            forall e | e in rows[1..] ensures NotLater(e, rows[0]) {
              NotLaterTransitive(e, m, rows[0]);
            }
          }
          NotLaterReflexive(rows[0]);
          assert forall e :: e in rows ==> e == rows[0] || e in rows[1..];
          Some(rows[0])
        else
          Some(m)
  }

  // ---------------------------------------------------------------------------
  // The four queries of getPackageDetailsInDB

  /** The first row whose `key` column equals `k`: the row `QueryRow ... WHERE key = k` scans. */
  function FirstWhere<T, K(==)>(rows: seq<T>, key: T -> K, k: K): (r: Option<T>)
    ensures r.Some? ==> r.value in rows && key(r.value) == k
    ensures r.None? <==> forall row :: row in rows ==> key(row) != k
  {
    if rows == [] then None
    else if key(rows[0]) == k then Some(rows[0])
    else FirstWhere(rows[1..], key, k)
  }

  /** `WHERE sno = $1` over TrackingDetails, in table order. */
  function DetailsOf(rows: seq<DetailRow>, sno: string): (r: seq<DetailRow>)
    ensures forall e :: e in r <==> e in rows && e.sno == sno
    ensures |r| <= |rows|
  {
    if rows == [] then []
    else if rows[0].sno == sno then [rows[0]] + DetailsOf(rows[1..], sno)
    else DetailsOf(rows[1..], sno)
  }

  /** SELECT sno, tracking_status, estimated_delivery FROM Packages WHERE sno = $1 */
  function QueryPackage(db: Db, sno: string): (r: Result<PackageRow>)
    ensures PackageQuery in db.failing ==> r == Err(ErrConnection)
    ensures PackageQuery !in db.failing ==>
      (r == Err(ErrNoRows) <==> forall p :: p in db.packages ==> p.sno != sno)
    ensures r.Ok? ==> r.value in db.packages && r.value.sno == sno
    ensures PackageQuery !in db.failing ==> (r.Ok? <==> exists p :: p in db.packages && p.sno == sno)
    ensures r.Err? ==> r.error == ErrConnection || r.error == ErrNoRows
  {
    if PackageQuery in db.failing then Err(ErrConnection)
    else match FirstWhere(db.packages, (p: PackageRow) => p.sno, sno)
      case None => Err(ErrNoRows)
      case Some(row) => Ok(row)
  }

  /** SELECT id, date, time, status, location_id FROM TrackingDetails WHERE sno = $1 */
  function QueryDetails(db: Db, sno: string): (r: Result<seq<DetailRow>>)
    ensures r.Err? <==> DetailsQuery in db.failing
    ensures r.Err? ==> r.error == ErrConnection
    ensures r.Ok? ==> forall e :: e in r.value <==> e in db.trackingDetails && e.sno == sno
  {
    if DetailsQuery in db.failing then Err(ErrConnection) else Ok(DetailsOf(db.trackingDetails, sno))
  }

  /** SELECT id, name, address, phone FROM Recipients WHERE sno = $1 */
  function QueryRecipient(db: Db, sno: string): (r: Result<RecipientRow>)
    ensures RecipientQuery in db.failing ==> r == Err(ErrConnection)
    ensures RecipientQuery !in db.failing ==>
      (r == Err(ErrNoRows) <==> forall p :: p in db.recipients ==> p.sno != sno)
    ensures r.Ok? ==> r.value in db.recipients && r.value.sno == sno
    ensures RecipientQuery !in db.failing ==> (r.Ok? <==> exists p :: p in db.recipients && p.sno == sno)
    ensures r.Err? ==> r.error == ErrConnection || r.error == ErrNoRows
  {
    if RecipientQuery in db.failing then Err(ErrConnection)
    else match FirstWhere(db.recipients, (p: RecipientRow) => p.sno, sno)
      case None => Err(ErrNoRows)
      case Some(row) => Ok(row)
  }

  /**
   * SELECT location_id, title, city, address FROM Locations WHERE location_id =
   * (the location_id of the latest TrackingDetails row of `sno`).
   * Without events the subquery is NULL, which equals no location_id.
   */
  function QueryCurrentLocation(db: Db, sno: string): (r: Result<LocationRow>)
    ensures LocationQuery in db.failing ==> r == Err(ErrConnection)
    ensures LocationQuery !in db.failing && DetailsOf(db.trackingDetails, sno) == [] ==> r == Err(ErrNoRows)
    ensures r.Ok? ==> r.value in db.locations
    ensures LocationQuery !in db.failing && DetailsOf(db.trackingDetails, sno) != [] ==>
      (r.Ok? <==> exists l :: l in db.locations && l.locationId == LatestDetail(DetailsOf(db.trackingDetails, sno)).value.locationId)
    ensures r.Err? ==> r.error == ErrConnection || r.error == ErrNoRows
    ensures r.Ok? ==> exists e :: (e in db.trackingDetails && e.sno == sno && e.locationId == r.value.locationId
      && forall f :: f in db.trackingDetails && f.sno == sno ==> NotLater(f, e))
  {
    if LocationQuery in db.failing then Err(ErrConnection)
    else match LatestDetail(DetailsOf(db.trackingDetails, sno))
      case None => Err(ErrNoRows)
      case Some(latest) =>
        match FirstWhere(db.locations, (l: LocationRow) => l.locationId, latest.locationId)
        case None => Err(ErrNoRows)
        case Some(row) => Ok(row)
  }
}
