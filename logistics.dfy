/**
 * main.go: the cache-aside lookup of a package by tracking number (`sno`).
 *
 * `GetPackageDetailsInDB` assembles a record from four queries and stops at
 * the first failure, handing back what it has filled so far with the error.
 * `Get` reads field `sno` of the Redis hash "logistics_cache": a hit is
 * decoded and returned; `redis.Nil` makes it assemble from the database,
 * discard the assembly error, write whatever was built back to the cache
 * and return it as a success; any other cache error is returned as is.
 *
 * Each operation is specified by a function on values (`Assembled`,
 * `CacheWrite`, `Lookup`); the methods that mirror the Go code are proved
 * to compute exactly those, and the lemmas state what the functions promise.
 */
module Logistics {
  import opened Wrappers
  import opened Modal
  import opened Store
  import opened Json
  import opened Redis
  import opened EnvVars
  import Config

  /** The Redis hash holding every cached record, one field per tracking number. */
  const CacheKey := "logistics_cache"

  /** `time.Hour*2/60`, in seconds: two minutes. */
  const CacheTtl: nat := 3600 * 2 / 60

  // ---------------------------------------------------------------------------
  // Assembly from the database

  /** The record as far as it was filled, the error that stopped it, and the queries issued. */
  datatype Assembly = Assembly(record: PackageDetails, error: Option<StoreError>, issued: seq<Query>)

  /*
   * `Row.Scan` stores the columns left to right and stops at the first one
   * it cannot convert (a NULL into a Go `string`): the fields before it are
   * set, the failing field and those after it keep their previous values.
   */

  /** `row.Scan(&pd.Sno, &pd.TrackingStatus, &pd.EstimatedDelivery)` */
  function ScanPackage(pd: PackageDetails, row: PackageRow): (r: (PackageDetails, Option<StoreError>))
    ensures r.0.details == pd.details && r.0.recipient == pd.recipient && r.0.currentLocation == pd.currentLocation
    ensures r.0.sno == row.sno
    ensures r.0.trackingStatus == if row.trackingStatus.Some? then row.trackingStatus.value else pd.trackingStatus
    ensures r.0.estimatedDelivery ==
      if row.trackingStatus.Some? && row.estimatedDelivery.Some? then row.estimatedDelivery.value else pd.estimatedDelivery
    ensures r.1.None? <==> row.trackingStatus.Some? && row.estimatedDelivery.Some?
    ensures r.1.Some? ==> r.1.value == ErrNullColumn(if row.trackingStatus.None? then "tracking_status" else "estimated_delivery")
  {
    var pd := pd.(sno := row.sno);
    match row.trackingStatus
    case None => (pd, Some(ErrNullColumn("tracking_status")))
    case Some(trackingStatus) =>
      var pd := pd.(trackingStatus := trackingStatus);
      match row.estimatedDelivery
      case None => (pd, Some(ErrNullColumn("estimated_delivery")))
      case Some(estimatedDelivery) => (pd.(estimatedDelivery := estimatedDelivery), None)
  }

  /** `recipientRow.Scan(&pd.Recipient.ID, &.Name, &.Address, &.Phone)` */
  function ScanRecipient(r: RecipientInfo, row: RecipientRow): (s: (RecipientInfo, Option<StoreError>))
    ensures s.0.id == row.id
    ensures s.0.name == if row.name.Some? then row.name.value else r.name
    ensures s.0.address == if row.name.Some? && row.address.Some? then row.address.value else r.address
    ensures s.0.phone == if row.name.Some? && row.address.Some? && row.phone.Some? then row.phone.value else r.phone
    ensures s.1.None? <==> row.name.Some? && row.address.Some? && row.phone.Some?
    ensures s.1.Some? ==> s.1.value == ErrNullColumn(
      if row.name.None? then "name" else if row.address.None? then "address" else "phone")
  {
    var r := r.(id := row.id);
    match row.name
    case None => (r, Some(ErrNullColumn("name")))
    case Some(name) =>
      var r := r.(name := name);
      match row.address
      case None => (r, Some(ErrNullColumn("address")))
      case Some(address) =>
        var r := r.(address := address);
        match row.phone
        case None => (r, Some(ErrNullColumn("phone")))
        case Some(phone) => (r.(phone := phone), None)
  }

  /** `locationRow.Scan(&pd.CurrentLocation.LocationID, &.Title, &.City, &.Address)` */
  function ScanLocation(l: LocationInfo, row: LocationRow): (s: (LocationInfo, Option<StoreError>))
    ensures s.0.locationId == row.locationId
    ensures s.0.title == if row.title.Some? then row.title.value else l.title
    ensures s.0.city == if row.title.Some? && row.city.Some? then row.city.value else l.city
    ensures s.0.address == if row.title.Some? && row.city.Some? && row.address.Some? then row.address.value else l.address
    ensures s.1.None? <==> row.title.Some? && row.city.Some? && row.address.Some?
    ensures s.1.Some? ==> s.1.value == ErrNullColumn(
      if row.title.None? then "title" else if row.city.None? then "city" else "address")
  {
    var l := l.(locationId := row.locationId);
    match row.title
    case None => (l, Some(ErrNullColumn("title")))
    case Some(title) =>
      var l := l.(title := title);
      match row.city
      case None => (l, Some(ErrNullColumn("city")))
      case Some(city) =>
        var l := l.(city := city);
        match row.address
        case None => (l, Some(ErrNullColumn("address")))
        case Some(address) => (l.(address := address), None)
  }

  /**
   * `rows.Scan(&td.ID, &td.Date, &td.Time, &td.Status, &td.LocationID)` into a
   * fresh `TrackingDetail`; `LocationTitle` is never scanned.
   */
  function ScanDetail(row: DetailRow): (r: Result<TrackingDetail>)
    ensures r.Ok? <==> row.date.Some? && row.time.Some? && row.status.Some?
    ensures r.Ok? ==> r.value.id == row.id && r.value.locationId == row.locationId
    ensures r.Ok? ==> Some(r.value.date) == row.date && Some(r.value.time) == row.time && Some(r.value.status) == row.status
    ensures r.Ok? ==> r.value.locationTitle == ""
    ensures r.Err? ==> r.error == ErrNullColumn(if row.date.None? then "date" else if row.time.None? then "time" else "status")
  {
    if row.date.None? then Err(ErrNullColumn("date"))
    else if row.time.None? then Err(ErrNullColumn("time"))
    else if row.status.None? then Err(ErrNullColumn("status"))
    else Ok(TrackingDetail(row.id, row.date.value, row.time.value, row.status.value, row.locationId, ""))
  }

  /** The `rows.Next()` loop: events up to the first row that fails to scan, and that failure. */
  function ScanDetails(rows: seq<DetailRow>): (r: (seq<TrackingDetail>, Option<StoreError>))
    ensures |r.0| <= |rows|
    ensures r.1.None? <==> |r.0| == |rows|
    ensures r.1.Some? ==> ScanDetail(rows[|r.0|]) == Err(r.1.value)
  {
    if rows == [] then ([], None)
    else match ScanDetail(rows[0])
      case Err(e) => ([], Some(e))
      case Ok(detail) =>
        var rest := ScanDetails(rows[1..]);
        ([detail] + rest.0, rest.1)
  }

  /**
   * What getPackageDetailsInDB returns for `sno`: the statements issued are
   * a prefix of the four in order, all four run when no error is returned,
   * and a record returned without error belongs to `sno`.
   */
  function Assembled(db: Db, sno: string): (r: Assembly)
    ensures 1 <= |r.issued| <= 4 && r.issued == Steps[..|r.issued|]
    ensures r.error.None? ==> r.issued == Steps && r.record.sno == sno
  {
    match QueryPackage(db, sno)
    case Err(e) => Assembly(ZeroPackage, Some(e), [PackageQuery])
    case Ok(baseRow) =>
      var (pd, err) := ScanPackage(ZeroPackage, baseRow);
      if err.Some? then Assembly(pd, err, [PackageQuery])
      else AssembledFromDetails(db, sno, pd)
  }

  /** The steps from the events query on, given the record filled by the first step. */
  function AssembledFromDetails(db: Db, sno: string, pd: PackageDetails): (r: Assembly)
    ensures 2 <= |r.issued| <= 4 && r.issued == Steps[..|r.issued|]
    ensures r.error.None? ==> r.issued == Steps
    ensures r.record.sno == pd.sno && r.record.trackingStatus == pd.trackingStatus
    ensures r.record.estimatedDelivery == pd.estimatedDelivery
  {
    match QueryDetails(db, sno)
    case Err(e) => Assembly(pd, Some(e), [PackageQuery, DetailsQuery])
    case Ok(rows) =>
      var (details, err) := ScanDetails(rows);
      var pd := pd.(details := details);
      if err.Some? then Assembly(pd, err, [PackageQuery, DetailsQuery])
      else AssembledFromRecipient(db, sno, pd)
  }

  /** The steps from the recipient query on. */
  function AssembledFromRecipient(db: Db, sno: string, pd: PackageDetails): (r: Assembly)
    ensures 3 <= |r.issued| <= 4 && r.issued == Steps[..|r.issued|]
    ensures r.error.None? ==> r.issued == Steps
    ensures r.record.(recipient := pd.recipient, currentLocation := pd.currentLocation) == pd
  {
    match QueryRecipient(db, sno)
    case Err(e) => Assembly(pd, Some(e), [PackageQuery, DetailsQuery, RecipientQuery])
    case Ok(recipientRow) =>
      var (recipient, err) := ScanRecipient(pd.recipient, recipientRow);
      var pd := pd.(recipient := recipient);
      if err.Some? then Assembly(pd, err, [PackageQuery, DetailsQuery, RecipientQuery])
      else AssembledFromLocation(db, sno, pd)
  }

  /** The location step. */
  function AssembledFromLocation(db: Db, sno: string, pd: PackageDetails): (r: Assembly)
    ensures r.issued == Steps
    ensures r.record.(currentLocation := pd.currentLocation) == pd
  {
    match QueryCurrentLocation(db, sno)
    case Err(e) => Assembly(pd, Some(e), [PackageQuery, DetailsQuery, RecipientQuery, LocationQuery])
    case Ok(locationRow) =>
      var (location, err) := ScanLocation(pd.currentLocation, locationRow);
      Assembly(pd.(currentLocation := location), err, [PackageQuery, DetailsQuery, RecipientQuery, LocationQuery])
  }

  lemma {:induction false} ScanDetailsUnroll(rows: seq<DetailRow>, i: nat)
    requires i < |rows|
    ensures ScanDetail(rows[i]).Err? ==> ScanDetails(rows[i..]) == ([], Some(ScanDetail(rows[i]).error))
    ensures ScanDetail(rows[i]).Ok? ==>
      ScanDetails(rows[i..]) == ([ScanDetail(rows[i]).value] + ScanDetails(rows[i + 1..]).0, ScanDetails(rows[i + 1..]).1)
  {
    assert rows[i..][1..] == rows[i + 1..];
  }

  /** The `for rows.Next()` loop: each row is scanned into a fresh event and appended; a failing scan returns. */
  method ScanDetailRows(rows: seq<DetailRow>) returns (details: seq<TrackingDetail>, err: Option<StoreError>)
    ensures (details, err) == ScanDetails(rows)
  {
    details := [];
    var i := 0;
    while i < |rows|
      invariant 0 <= i <= |rows|
      invariant ScanDetails(rows).0 == details + ScanDetails(rows[i..]).0
      invariant ScanDetails(rows).1 == ScanDetails(rows[i..]).1
    {
      ScanDetailsUnroll(rows, i);
      var scanned := ScanDetail(rows[i]);
      if scanned.Err? {
        assert details + [] == details;
        return details, Some(scanned.error);
      }
      details := details + [scanned.value];
      i := i + 1;
    }
    assert rows[i..] == [];
    assert details + [] == details;
    err := None;
  }

  /** getPackageDetailsInDB: `pd` is filled field by field; each failing step returns at once. */
  method GetPackageDetailsInDB(sno: string, db: Db) returns (pd: PackageDetails, err: Option<StoreError>, ghost issued: seq<Query>)
    ensures pd == Assembled(db, sno).record && err == Assembled(db, sno).error
    ensures issued == Assembled(db, sno).issued
  {
    pd := ZeroPackage;
    issued := [PackageQuery];
    var base := QueryPackage(db, sno);
    if base.Err? {
      return pd, Some(base.error), issued;
    }
    var scanned := ScanPackage(pd, base.value);
    pd, err := scanned.0, scanned.1;
    if err.Some? {
      return;
    }
    ghost var expected := AssembledFromDetails(db, sno, pd);
    assert Assembled(db, sno) == expected;

    issued := issued + [DetailsQuery];
    var query := QueryDetails(db, sno);
    if query.Err? {
      return pd, Some(query.error), issued;
    }
    var details;
    details, err := ScanDetailRows(query.value);
    pd := pd.(details := details);
    if err.Some? {
      return;
    }
    assert expected == AssembledFromRecipient(db, sno, pd);

    issued := issued + [RecipientQuery];
    var recipientRow := QueryRecipient(db, sno);
    if recipientRow.Err? {
      return pd, Some(recipientRow.error), issued;
    }
    var recipient := ScanRecipient(pd.recipient, recipientRow.value);
    pd := pd.(recipient := recipient.0);
    if recipient.1.Some? {
      return pd, recipient.1, issued;
    }
    assert expected == AssembledFromLocation(db, sno, pd);

    issued := issued + [LocationQuery];
    var locationRow := QueryCurrentLocation(db, sno);
    if locationRow.Err? {
      return pd, Some(locationRow.error), issued;
    }
    var location := ScanLocation(pd.currentLocation, locationRow.value);
    pd := pd.(currentLocation := location.0);
    return pd, location.1, issued;
  }

  // ---------------------------------------------------------------------------
  // What assembly promises

  /** The four statements in the order getPackageDetailsInDB issues them. */
  const Steps: seq<Query> := [PackageQuery, DetailsQuery, RecipientQuery, LocationQuery]

  /** The error step `q` returns when it is reached: its query's error, or else its scan's. */
  function StepError(db: Db, sno: string, q: Query): (r: Option<StoreError>)
    ensures r == Some(ErrConnection) <==> q in db.failing
    ensures q == PackageQuery && r.None? ==> exists p :: p in db.packages && p.sno == sno
    ensures q == RecipientQuery && r.None? ==> exists rr :: rr in db.recipients && rr.sno == sno
    ensures q == LocationQuery && r.None? ==> DetailsOf(db.trackingDetails, sno) != []
  {
    match q
    case PackageQuery =>
      (match QueryPackage(db, sno)
       case Err(e) => Some(e)
       case Ok(row) => ScanPackage(ZeroPackage, row).1)
    case DetailsQuery =>
      (match QueryDetails(db, sno)
       case Err(e) => Some(e)
       case Ok(rows) => ScanDetails(rows).1)
    case RecipientQuery =>
      (match QueryRecipient(db, sno)
       case Err(e) => Some(e)
       case Ok(row) => ScanRecipient(ZeroRecipient, row).1)
    case LocationQuery =>
      (match QueryCurrentLocation(db, sno)
       case Err(e) => Some(e)
       case Ok(row) => ScanLocation(ZeroLocation, row).1)
  }

  /** The location step, entered with no location filled in, fails exactly when that step does. */
  lemma AssemblyFromLocation(db: Db, sno: string, pd: PackageDetails)
    requires pd.currentLocation == ZeroLocation
    ensures var a := AssembledFromLocation(db, sno, pd);
      && a.issued == Steps
      && a.error == StepError(db, sno, LocationQuery)
  {
  }

  lemma AssemblyFromRecipient(db: Db, sno: string, pd: PackageDetails)
    requires pd.recipient == ZeroRecipient && pd.currentLocation == ZeroLocation
    ensures var a := AssembledFromRecipient(db, sno, pd); var n := |a.issued|;
      && 3 <= n <= 4
      && a.issued == Steps[..n]
      && (n == 4 ==> StepError(db, sno, RecipientQuery).None?)
      && a.error == StepError(db, sno, Steps[n - 1])
      && (n < 4 ==> a.error.Some?)
  {
    match QueryRecipient(db, sno)
    case Err(_) =>
    case Ok(row) =>
      var scanned := ScanRecipient(pd.recipient, row);
      if scanned.1.None? {
        AssemblyFromLocation(db, sno, pd.(recipient := scanned.0));
      }
  }

  lemma AssemblyFromDetails(db: Db, sno: string, pd: PackageDetails)
    requires pd.recipient == ZeroRecipient && pd.currentLocation == ZeroLocation
    ensures var a := AssembledFromDetails(db, sno, pd); var n := |a.issued|;
      && 2 <= n <= 4
      && a.issued == Steps[..n]
      && (forall j :: 1 <= j < n - 1 ==> StepError(db, sno, Steps[j]).None?)
      && a.error == StepError(db, sno, Steps[n - 1])
      && (n < 4 ==> a.error.Some?)
  {
    match QueryDetails(db, sno)
    case Err(_) =>
    case Ok(rows) =>
      if ScanDetails(rows).1.None? {
        AssemblyFromRecipient(db, sno, pd.(details := ScanDetails(rows).0));
      }
  }

  /**
   * Assembly runs the steps in order and returns at the first one that
   * fails, with that step's error: every step before the last one issued
   * succeeded, the error returned is the last step's, and fewer than four
   * steps means the last one failed.
   */
  lemma AssemblyStopsAtFirstFailure(db: Db, sno: string)
    ensures var a := Assembled(db, sno); var n := |a.issued|;
      && 1 <= n <= 4
      && a.issued == Steps[..n]
      && (forall j :: 0 <= j < n - 1 ==> StepError(db, sno, Steps[j]).None?)
      && a.error == StepError(db, sno, Steps[n - 1])
      && (n < 4 ==> a.error.Some?)
  {
    match QueryPackage(db, sno)
    case Err(_) =>
    case Ok(row) =>
      var scanned := ScanPackage(ZeroPackage, row);
      if scanned.1.None? {
        AssemblyFromDetails(db, sno, scanned.0);
      }
  }

  /**
   * The record handed back holds what every step reached has scanned, the
   * events read before a failing row included, and Go's zero values for the
   * parts of steps not reached.
   */
  lemma AssemblyKeepsScannedValues(db: Db, sno: string)
    ensures var a := Assembled(db, sno); var n := |a.issued|;
      && (QueryPackage(db, sno).Err? ==> a.record == ZeroPackage)
      && (QueryPackage(db, sno).Ok? ==>
            var base := ScanPackage(ZeroPackage, QueryPackage(db, sno).value).0;
            a.record.sno == base.sno && a.record.trackingStatus == base.trackingStatus
            && a.record.estimatedDelivery == base.estimatedDelivery)
      && (n >= 2 && QueryDetails(db, sno).Ok? ==> a.record.details == ScanDetails(QueryDetails(db, sno).value).0)
      && (n < 2 || QueryDetails(db, sno).Err? ==> a.record.details == [])
      && (n >= 3 && QueryRecipient(db, sno).Ok? ==>
            a.record.recipient == ScanRecipient(ZeroRecipient, QueryRecipient(db, sno).value).0)
      && (n < 3 || QueryRecipient(db, sno).Err? ==> a.record.recipient == ZeroRecipient)
      && (n == 4 && QueryCurrentLocation(db, sno).Ok? ==>
            a.record.currentLocation == ScanLocation(ZeroLocation, QueryCurrentLocation(db, sno).value).0)
      && (n < 4 || QueryCurrentLocation(db, sno).Err? ==> a.record.currentLocation == ZeroLocation)
  {
  }

  /** When every row scans, the events are one per row, position by position. */
  lemma {:induction false} ScanDetailsAll(rows: seq<DetailRow>)
    ensures ScanDetails(rows).1.None? <==> forall k :: 0 <= k < |rows| ==> ScanDetail(rows[k]).Ok?
    ensures ScanDetails(rows).1.None? ==>
      |ScanDetails(rows).0| == |rows| &&
      forall k :: 0 <= k < |rows| ==> ScanDetails(rows).0[k] == ScanDetail(rows[k]).value
  {
    if rows != [] && ScanDetail(rows[0]).Ok? {
      ScanDetailsAll(rows[1..]);
      var rest := ScanDetails(rows[1..]).0;
      forall k | 0 < k < |rows| ensures rows[1..][k - 1] == rows[k] {}
      if ScanDetails(rows).1.None? {
        forall k | 0 <= k < |rows| ensures ScanDetails(rows).0[k] == ScanDetail(rows[k]).value {
          if k > 0 {
            assert ScanDetails(rows).0[k] == rest[k - 1];
          }
        }
      }
    }
  }

  /**
   * When row `k` is the first that fails to scan, the loop returns that
   * row's error together with the events of the `k` rows before it.
   */
  lemma {:induction false} ScanDetailsStopsAt(rows: seq<DetailRow>, k: nat)
    requires k < |rows| && ScanDetail(rows[k]).Err?
    requires forall i :: 0 <= i < k ==> ScanDetail(rows[i]).Ok?
    ensures ScanDetails(rows).1 == Some(ScanDetail(rows[k]).error)
    ensures |ScanDetails(rows).0| == k
    ensures forall i :: 0 <= i < k ==> ScanDetails(rows).0[i] == ScanDetail(rows[i]).value
  {
    if k > 0 {
      assert ScanDetail(rows[0]).Ok?;
      forall i | 0 <= i < k - 1 ensures ScanDetail(rows[1..][i]).Ok? {
        assert rows[1..][i] == rows[i + 1];
      }
      assert rows[1..][k - 1] == rows[k];
      ScanDetailsStopsAt(rows[1..], k - 1);
      var rest := ScanDetails(rows[1..]).0;
      forall i | 0 <= i < k ensures ScanDetails(rows).0[i] == ScanDetail(rows[i]).value {
        if i > 0 {
          assert ScanDetails(rows).0[i] == rest[i - 1];
          assert rows[1..][i - 1] == rows[i];
        }
      }
    }
  }

  /** A successful assembly ran the events scan and the location scan to completion. */
  lemma AssembledSuccess(db: Db, sno: string)
    requires Assembled(db, sno).error.None?
    ensures DetailsQuery !in db.failing && QueryCurrentLocation(db, sno).Ok?
    ensures ScanDetails(DetailsOf(db.trackingDetails, sno)) == (Assembled(db, sno).record.details, None)
    ensures ScanLocation(ZeroLocation, QueryCurrentLocation(db, sno).value) == (Assembled(db, sno).record.currentLocation, None)
  {
  }

  /**
   * On success the events are exactly the event rows of `sno`, in the order
   * the database returned them, each with its fields as stored and an empty
   * LocationTitle, since no code path assigns it.
   */
  lemma AssembledDetails(db: Db, sno: string)
    requires Assembled(db, sno).error.None?
    ensures var pd := Assembled(db, sno).record; var rows := DetailsOf(db.trackingDetails, sno);
      && |pd.details| == |rows|
      && forall k :: 0 <= k < |rows| ==>
           && pd.details[k].id == rows[k].id
           && Some(pd.details[k].date) == rows[k].date
           && Some(pd.details[k].time) == rows[k].time
           && Some(pd.details[k].status) == rows[k].status
           && pd.details[k].locationId == rows[k].locationId
           && pd.details[k].locationTitle == ""
  {
    AssembledSuccess(db, sno);
    ScanDetailsAll(DetailsOf(db.trackingDetails, sno));
  }

  /**
   * On success the current location is the Locations row of an event of
   * `sno` with the latest (date, time), and that event is among the record's
   * own events.
   */
  lemma AssembledCurrentLocation(db: Db, sno: string)
    requires Assembled(db, sno).error.None?
    ensures var pd := Assembled(db, sno).record; var rows := DetailsOf(db.trackingDetails, sno);
      |pd.details| == |rows| &&
      exists k :: 0 <= k < |rows|
        && (forall e :: e in rows ==> NotLater(e, rows[k]))
        && pd.details[k].locationId == pd.currentLocation.locationId
        && exists l :: l in db.locations && l.locationId == rows[k].locationId
             && Some(pd.currentLocation.title) == l.title
             && Some(pd.currentLocation.city) == l.city
             && Some(pd.currentLocation.address) == l.address
  {
    var pd := Assembled(db, sno).record;
    var rows := DetailsOf(db.trackingDetails, sno);
    AssembledSuccess(db, sno);
    AssembledDetails(db, sno);
    var latest := LatestDetail(rows).value;
    var k :| 0 <= k < |rows| && rows[k] == latest;
    var l := QueryCurrentLocation(db, sno).value;
    assert l == FirstWhere(db.locations, (l: LocationRow) => l.locationId, latest.locationId).value;
    assert pd.details[k].locationId == rows[k].locationId;
    assert l in db.locations && l.locationId == rows[k].locationId;
  }

  /** A package without events fails at the location step with sql.ErrNoRows, its other parts filled. */
  lemma NoEventsFails(db: Db, sno: string)
    requires db.failing == {}
    requires DetailsOf(db.trackingDetails, sno) == []
    requires QueryPackage(db, sno).Ok? && ScanPackage(ZeroPackage, QueryPackage(db, sno).value).1.None?
    requires QueryRecipient(db, sno).Ok? && ScanRecipient(ZeroRecipient, QueryRecipient(db, sno).value).1.None?
    ensures Assembled(db, sno).error == Some(ErrNoRows)
    ensures Assembled(db, sno).issued == [PackageQuery, DetailsQuery, RecipientQuery, LocationQuery]
    ensures Assembled(db, sno).record.currentLocation == ZeroLocation
    ensures Assembled(db, sno).record.details == []
    ensures Assembled(db, sno).record.sno == sno
  {
  }

  // ---------------------------------------------------------------------------
  // The cache

  /**
   * setLogisticsInfoInCache after `json.Marshal`: the new server state and
   * the error returned. A cache write stores the marshalled record `data`
   * under field `sno` of the hash, leaves every other field and key alone,
   * and sets a two-minute TTL on the whole hash when it exists; an HSET
   * failure is ignored and only EXPIRE's error is returned, in which case
   * no TTL changes.
   */
  function CacheWrite(st: ServerState, sno: string, data: string): (r: (ServerState, Option<CacheError>))
    ensures r.0.failing == st.failing
    ensures r.1.Some? <==> ExpireCommand in st.failing
    ensures HSetCommand !in st.failing ==>
      FieldsOf(r.0.hashes, CacheKey) == FieldsOf(st.hashes, CacheKey)[sno := data]
    ensures HSetCommand in st.failing ==> r.0.hashes == st.hashes
    ensures forall k :: k != CacheKey ==> FieldsOf(r.0.hashes, k) == FieldsOf(st.hashes, k)
    ensures forall f :: f in FieldsOf(st.hashes, CacheKey) && f != sno ==>
      f in FieldsOf(r.0.hashes, CacheKey) && FieldsOf(r.0.hashes, CacheKey)[f] == FieldsOf(st.hashes, CacheKey)[f]
    ensures r.1.None? && (HSetCommand !in st.failing || CacheKey in st.hashes) ==> r.0.ttls == st.ttls[CacheKey := 120]
    ensures forall k :: k != CacheKey && k in st.ttls ==> k in r.0.ttls && r.0.ttls[k] == st.ttls[k]
    ensures r.1.Some? || (HSetCommand in st.failing && CacheKey !in st.hashes) ==> r.0.ttls == st.ttls
    ensures forall k :: k != CacheKey ==> (k in r.0.ttls <==> k in st.ttls)
  {
    var written := AfterHSet(st, CacheKey, sno, data).0;
    assert CacheTtl == 120;
    AfterExpire(written, CacheKey, CacheTtl)
  }

  method SetLogisticsInfoInCache(client: Client, sno: string, pd: PackageDetails) returns (err: Option<CacheError>)
    modifies client
    ensures (client.State(), err) == CacheWrite(old(client.State()), sno, Encode(pd))
  {
    // json.Marshal cannot fail on these field types, so its error branch is never taken
    var data := Encode(pd);
    var _ := client.HSet(CacheKey, sno, data);
    err := client.Expire(CacheKey, CacheTtl);
  }

  // ---------------------------------------------------------------------------
  // The lookup

  datatype LookupError = CacheFailure(cause: CacheError) | DecodeFailure

  /** The record and error `get` returns, and the server state after it. */
  datatype LookupResult = LookupResult(record: PackageDetails, error: Option<LookupError>, server: ServerState)

  /**
   * get: the server state changes only on a miss, which never reports an
   * error and returns the assembled record; a failed HGET is returned as is;
   * a record comes back with an error only as the all-zero record.
   */
  function Lookup(st: ServerState, db: Db, sno: string): (r: LookupResult)
    ensures r.error.Some? ==> r.record == ZeroPackage
    ensures r.server != st ==> HGetReplyOf(st, CacheKey, sno).Nil?
    ensures HGetReplyOf(st, CacheKey, sno).Nil? ==> r.error.None? && r.record == Assembled(db, sno).record
    ensures HGetReplyOf(st, CacheKey, sno).Failed? ==> r.error == Some(CacheFailure(HGetReplyOf(st, CacheKey, sno).error))
    ensures r.error == Some(DecodeFailure) <==>
      HGetReplyOf(st, CacheKey, sno).Hit? && Decode(HGetReplyOf(st, CacheKey, sno).payload).None?
  {
    match HGetReplyOf(st, CacheKey, sno)
    case Nil =>
      var assembled := Assembled(db, sno);
      LookupResult(assembled.record, None, CacheWrite(st, sno, Encode(assembled.record)).0)
    case Failed(e) =>
      LookupResult(ZeroPackage, Some(CacheFailure(e)), st)
    case Hit(payload) =>
      match Decode(payload)
      case None => LookupResult(ZeroPackage, Some(DecodeFailure), st)
      case Some(pd) => LookupResult(pd, None, st)
  }

  method Get(client: Client, db: Db, sno: string) returns (pd: PackageDetails, err: Option<LookupError>)
    modifies client
    ensures LookupResult(pd, err, client.State()) == Lookup(old(client.State()), db, sno)
  {
    var cacheResult := client.HGet(CacheKey, sno);
    match cacheResult
    case Nil =>
      var packageDetails, _, _ := GetPackageDetailsInDB(sno, db);
      var _ := SetLogisticsInfoInCache(client, sno, packageDetails);
      return packageDetails, None;
    case Failed(e) =>
      return ZeroPackage, Some(CacheFailure(e));
    case Hit(payload) =>
      match Decode(payload)
      case None =>
        return ZeroPackage, Some(DecodeFailure);
      case Some(packageDetails) =>
        return packageDetails, None;
  }

  /** A hit decodes the stored payload; the database is not consulted and the cache is not touched. */
  lemma LookupHit(st: ServerState, db: Db, db': Db, sno: string)
    requires HGetReplyOf(st, CacheKey, sno).Hit?
    ensures Lookup(st, db, sno) == Lookup(st, db', sno)
    ensures Lookup(st, db, sno).server == st
    ensures var payload := FieldsOf(st.hashes, CacheKey)[sno];
      match Decode(payload)
      case Some(pd) => Lookup(st, db, sno).record == pd && Lookup(st, db, sno).error == None
      case None => Lookup(st, db, sno).record == ZeroPackage && Lookup(st, db, sno).error == Some(DecodeFailure)
  {
  }

  /**
   * A miss (`redis.Nil`) always succeeds: the assembly error is dropped, the
   * record built so far, complete or not, is returned, and it is what the
   * cache now holds for `sno` unless the HSET failed.
   */
  lemma LookupMiss(st: ServerState, db: Db, sno: string)
    requires HGetReplyOf(st, CacheKey, sno).Nil?
    ensures Lookup(st, db, sno).error == None
    ensures Lookup(st, db, sno).record == Assembled(db, sno).record
    ensures HSetCommand !in st.failing ==>
      FieldsOf(Lookup(st, db, sno).server.hashes, CacheKey) == FieldsOf(st.hashes, CacheKey)[sno := Encode(Assembled(db, sno).record)]
  {
  }

  /** Any other cache error is returned with an empty record; the database is not consulted. */
  lemma LookupCacheError(st: ServerState, db: Db, db': Db, sno: string)
    requires HGetCommand in st.failing
    ensures Lookup(st, db, sno) == Lookup(st, db', sno)
    ensures Lookup(st, db, sno) == LookupResult(ZeroPackage, Some(CacheFailure(CommandFailed(HGetCommand))), st)
  {
  }

  /** Whether the cache write fails or not changes neither the record nor the error `get` returns. */
  lemma LookupIgnoresWriteFailure(st: ServerState, db: Db, sno: string, failing: set<Command>)
    requires (HGetCommand in failing) == (HGetCommand in st.failing)
    ensures Lookup(st, db, sno).record == Lookup(st.(failing := failing), db, sno).record
    ensures Lookup(st, db, sno).error == Lookup(st.(failing := failing), db, sno).error
  {
  }

  /**
   * After a miss has written the cache, the next lookup of the same `sno`
   * is a hit that returns the identical record, even when the first
   * assembly failed part way.
   */
  lemma MissThenHit(st: ServerState, db: Db, db': Db, sno: string)
    requires HGetReplyOf(st, CacheKey, sno).Nil?
    requires HSetCommand !in st.failing
    ensures var first := Lookup(st, db, sno);
      var second := Lookup(first.server, db', sno);
      && second.record == first.record
      && second.error == None
      && second.server == first.server
  {
    var first := Lookup(st, db, sno);
    LookupMiss(st, db, sno);
    var payload := Encode(first.record);
    assert first.server.failing == st.failing;
    assert FieldsOf(first.server.hashes, CacheKey)[sno] == payload;
    assert HGetReplyOf(first.server, CacheKey, sno) == Hit(payload);
    DecodeEncode(first.record);
  }

  /** A tracking number the database does not know is cached and returned as the all-zero record. */
  lemma UnknownNumberCachedAsZero(st: ServerState, db: Db, sno: string)
    requires HGetReplyOf(st, CacheKey, sno).Nil?
    requires QueryPackage(db, sno) == Err(ErrNoRows)
    ensures Lookup(st, db, sno).error == None
    ensures Lookup(st, db, sno).record == ZeroPackage
  {
  }

  // ---------------------------------------------------------------------------
  // The /query handler

  datatype ErrorInfo = ErrorInfo(code: int, message: string)

  /** The HTTP code and the JSON body of a /query reply. */
  datatype QueryResponse = QueryResponse(code: int, status: string, data: Option<PackageDetails>, error: Option<ErrorInfo>)

  const NotFound := QueryResponse(404, "error", None, Some(ErrorInfo(404, "Tracking number not found")))

  /** The reply for what `get` returned: every error is 404 "Tracking number not found". */
  function RespondToLookup(pd: PackageDetails, err: Option<LookupError>): (r: QueryResponse)
    ensures r.code == 200 <==> err.None?
    ensures r.code == 404 <==> err.Some?
    ensures err.Some? ==> r.data.None? && r.error == Some(ErrorInfo(404, "Tracking number not found"))
    ensures err.None? ==> r.data == Some(pd) && r.status == "success" && r.error.None?
  {
    if err.Some? then NotFound else QueryResponse(200, "success", Some(pd), None)
  }

  /** What the handler replies: the /query reply, or config.go's health reply when there is no database. */
  datatype Reply = QueryReply(query: QueryResponse) | HealthReply(health: Config.HealthResponse)

  /**
   * queryLogisticsHandler. Without a database handle the route serves the
   * health check; an empty `sno` is 404 without a lookup.
   */
  method QueryLogisticsHandler(db: Option<Db>, client: Client?, env: Environment, sno: string) returns (reply: Reply)
    requires db.Some? && sno != "" ==> client != null
    modifies if client != null then {client} else {}
    ensures db.None? ==> reply == HealthReply(Config.HealthCheck(true, client == null, env))
    ensures db.Some? && sno == "" ==> reply == QueryReply(NotFound)
    ensures db.None? || sno == "" ==> client != null ==> unchanged(client)
    ensures db.Some? && sno != "" ==>
      var l := Lookup(old(client.State()), db.value, sno);
      reply == QueryReply(RespondToLookup(l.record, l.error)) && client.State() == l.server
  {
    if db.None? {
      return HealthReply(Config.HealthCheck(true, client == null, env));
    }
    if sno == "" {
      return QueryReply(NotFound);
    }
    var details, err := Get(client, db.value, sno);
    return QueryReply(RespondToLookup(details, err));
  }

  /** A miss on an unknown tracking number is answered 200 with the all-zero record, never 404. */
  lemma UnknownNumberAnswered200(st: ServerState, db: Db, sno: string)
    requires HGetReplyOf(st, CacheKey, sno).Nil?
    requires QueryPackage(db, sno) == Err(ErrNoRows)
    ensures var l := Lookup(st, db, sno); RespondToLookup(l.record, l.error) == QueryResponse(200, "success", Some(ZeroPackage), None)
  {
    UnknownNumberCachedAsZero(st, db, sno);
  }

  // ---------------------------------------------------------------------------
  // Two concrete lookups

  /** Package SNO123 with two events; the later one (2024-01-09 09:00) is at location 7. */
  const Sno123Db := Db(
    {},
    [PackageRow("SNO123", Some("In Transit"), Some("2024-01-10"))],
    [ DetailRow(1, "SNO123", Some("2024-01-08"), Some("10:00"), Some("Picked up"), 5),
      DetailRow(2, "SNO123", Some("2024-01-09"), Some("09:00"), Some("In transit"), 7)],
    [RecipientRow(1, "SNO123", Some("Alice"), Some("1 Main St"), Some("555-0100"))],
    [ LocationRow(5, Some("Depot"), Some("Taipei"), Some("1 Depot Rd")),
      LocationRow(7, Some("Hub"), Some("Taichung"), Some("7 Hub Rd"))])

  /** The two SNO123 events as the record carries them. */
  const Sno123Events := [
    TrackingDetail(1, "2024-01-08", "10:00", "Picked up", 5, ""),
    TrackingDetail(2, "2024-01-09", "09:00", "In transit", 7, "")]

  /** Of two events, the strictly later one is the latest. */
  lemma LatestOfTwo(e: DetailRow, f: DetailRow)
    requires !NotLater(f, e)
    ensures LatestDetail([e, f]) == Some(f)
  {
    assert [e, f][1..] == [f];
    assert [f][1..] == [];
  }

  /** SNO123's second event is dated after its first. */
  lemma Sno123SecondIsLater()
    ensures !NotLater(Sno123Db.trackingDetails[1], Sno123Db.trackingDetails[0])
  {
    var first, second := "2024-01-08", "2024-01-09";
    assert first[..9] == second[..9];
    TextLeFirstDifference(first, second, 9);
    assert !ColumnLe(Some(second), Some(first));
  }

  /** The latest SNO123 event is the second one. */
  lemma Sno123Latest()
    ensures DetailsOf(Sno123Db.trackingDetails, "SNO123") == Sno123Db.trackingDetails
    ensures LatestDetail(Sno123Db.trackingDetails) == Some(Sno123Db.trackingDetails[1])
  {
    var rows := Sno123Db.trackingDetails;
    assert rows[1..][1..] == [];
    assert rows == [rows[0], rows[1]];
    Sno123SecondIsLater();
    LatestOfTwo(rows[0], rows[1]);
  }

  /** The location step for SNO123 finds location 7, whatever was filled before. */
  lemma Sno123LocationStep(pd: PackageDetails)
    requires pd.currentLocation == ZeroLocation
    ensures AssembledFromLocation(Sno123Db, "SNO123", pd).error == None
    ensures AssembledFromLocation(Sno123Db, "SNO123", pd).record == pd.(currentLocation := LocationInfo(7, "Hub", "Taichung", "7 Hub Rd"))
  {
    Sno123Latest();
    var locations := Sno123Db.locations;
    var key := (l: LocationRow) => l.locationId;
    assert FirstWhere(locations[1..], key, 7) == Some(locations[1]);
    assert FirstWhere(locations, key, 7) == Some(locations[1]);
  }

  /** Each SNO123 event row scans into the corresponding event. */
  lemma Sno123RowsScan()
    ensures ScanDetail(Sno123Db.trackingDetails[0]) == Ok(Sno123Events[0])
    ensures ScanDetail(Sno123Db.trackingDetails[1]) == Ok(Sno123Events[1])
  {
  }

  /** Two rows that both scan give their two events and no error. */
  lemma ScanTwo(first: DetailRow, second: DetailRow)
    requires ScanDetail(first).Ok? && ScanDetail(second).Ok?
    ensures ScanDetails([first, second]) == ([ScanDetail(first).value, ScanDetail(second).value], None)
  {
    var rows := [first, second];
    assert rows[1..] == [second];
    assert [second][1..] == [];
    assert ScanDetails([]) == ([], None);
    assert [ScanDetail(second).value] + [] == [ScanDetail(second).value];
    assert ScanDetails([second]) == ([ScanDetail(second).value], None);
    assert ScanDetails(rows) == ([ScanDetail(first).value] + [ScanDetail(second).value], None);
    assert [ScanDetail(first).value] + [ScanDetail(second).value] == [ScanDetail(first).value, ScanDetail(second).value];
  }

  /** Both SNO123 events scan. */
  lemma Sno123EventsScan()
    ensures QueryDetails(Sno123Db, "SNO123") == Ok(Sno123Db.trackingDetails)
    ensures ScanDetails(Sno123Db.trackingDetails) == (Sno123Events, None)
  {
    Sno123Latest();
    Sno123RowsScan();
    var rows := Sno123Db.trackingDetails;
    assert rows == [rows[0], rows[1]];
    ScanTwo(rows[0], rows[1]);
  }

  /** The SNO123 recipient row scans. */
  lemma Sno123Recipient(r: RecipientInfo)
    ensures QueryRecipient(Sno123Db, "SNO123") == Ok(Sno123Db.recipients[0])
    ensures ScanRecipient(r, Sno123Db.recipients[0]).1 == None
  {
  }

  /** The events and recipient steps for SNO123 succeed and hand two events to the location step. */
  lemma Sno123MiddleSteps(pd: PackageDetails)
    ensures var pd' := pd.(details := ScanDetails(Sno123Db.trackingDetails).0);
      var pd'' := pd'.(recipient := ScanRecipient(pd'.recipient, Sno123Db.recipients[0]).0);
      AssembledFromDetails(Sno123Db, "SNO123", pd) == AssembledFromLocation(Sno123Db, "SNO123", pd'')
  {
    Sno123EventsScan();
    var pd' := pd.(details := ScanDetails(Sno123Db.trackingDetails).0);
    Sno123Recipient(pd'.recipient);
    assert AssembledFromDetails(Sno123Db, "SNO123", pd) == AssembledFromRecipient(Sno123Db, "SNO123", pd');
  }

  /** Assembling SNO123 succeeds, with both events and location 7 as the current location. */
  lemma Sno123Assembled()
    ensures Assembled(Sno123Db, "SNO123").error == None
    ensures Assembled(Sno123Db, "SNO123").record.currentLocation == LocationInfo(7, "Hub", "Taichung", "7 Hub Rd")
    ensures Assembled(Sno123Db, "SNO123").record.details == Sno123Events
  {
    var base := Sno123Db.packages[0];
    assert QueryPackage(Sno123Db, "SNO123") == Ok(base);
    var pd := ScanPackage(ZeroPackage, base).0;
    assert Assembled(Sno123Db, "SNO123") == AssembledFromDetails(Sno123Db, "SNO123", pd);
    Sno123MiddleSteps(pd);
    Sno123EventsScan();
    var pd' := pd.(details := ScanDetails(Sno123Db.trackingDetails).0);
    Sno123LocationStep(pd'.(recipient := ScanRecipient(pd'.recipient, Sno123Db.recipients[0]).0));
  }

  /** A miss on SNO123 answers with location 7, the location of the latest event, and both events. */
  lemma Sno123CurrentLocation(st: ServerState)
    requires HGetReplyOf(st, CacheKey, "SNO123").Nil?
    ensures Lookup(st, Sno123Db, "SNO123").error == None
    ensures Lookup(st, Sno123Db, "SNO123").record.currentLocation == LocationInfo(7, "Hub", "Taichung", "7 Hub Rd")
    ensures Lookup(st, Sno123Db, "SNO123").record.details == Sno123Events
  {
    Sno123Assembled();
    LookupMiss(st, Sno123Db, "SNO123");
  }

  /** A cached payload that is not valid JSON is reported as an error, and the store is not consulted. */
  lemma InvalidPayloadIsError(st: ServerState, db: Db)
    requires HGetCommand !in st.failing
    requires CacheKey in st.hashes && st.hashes[CacheKey] == map["SNO999" := "{not json"]
    ensures Lookup(st, db, "SNO999") == LookupResult(ZeroPackage, Some(DecodeFailure), st)
  {
    var payload := "{not json";
    assert payload[..7][1] != "{\"sno\":"[1];
    assert Expect("{\"sno\":", payload) == None;
  }
}
