/** API/Health.go: a health check that reports each connection and fails with 503. */
module ApiHealth {

  datatype Status = Status(database: string, redis: string)

  /** The HTTP code and the `status` object of the reply. */
  datatype HealthReply = HealthReply(code: int, status: Status)

  function HealthCheck(dbNil: bool, clientNil: bool): (r: HealthReply)
    ensures r.status.database == "Not Connected" <==> dbNil
    ensures r.status.database == "OK" <==> !dbNil
    ensures r.status.redis == "Not Connected" <==> clientNil
    ensures r.status.redis == "OK" <==> !clientNil
    ensures r.code == 503 <==> dbNil || clientNil
    ensures r.code == 200 <==> !dbNil && !clientNil
  {
    var dbStatus := if dbNil then "Not Connected" else "OK";
    var redisStatus := if clientNil then "Not Connected" else "OK";
    var status := Status(dbStatus, redisStatus);
    if dbNil || clientNil then HealthReply(503, status) else HealthReply(200, status)
  }
}
