/**
 * The record types of modal.go. Every Go `int` field is a 64-bit signed
 * integer; a Go `[]TrackingDetail` is an ordered, possibly empty sequence;
 * `Recipient` and `CurrentLocation` are plain structs, so every package
 * record carries exactly one of each (never optional).
 */
module Modal {

  const MinInt64: int := -0x8000_0000_0000_0000
  const MaxInt64: int := 0x7FFF_FFFF_FFFF_FFFF

  /** Go's `int` on a 64-bit platform. */
  type Int64 = x: int | MinInt64 <= x <= MaxInt64

  /** One history entry. `locationId` names the same key as `LocationInfo.locationId`. */
  datatype TrackingDetail = TrackingDetail(
    id: Int64,
    date: string,
    time: string,
    status: string,
    locationId: Int64,
    locationTitle: string)

  datatype RecipientInfo = RecipientInfo(
    id: Int64,
    name: string,
    address: string,
    phone: string)

  datatype LocationInfo = LocationInfo(
    locationId: Int64,
    title: string,
    city: string,
    address: string)

  datatype PackageDetails = PackageDetails(
    sno: string,
    trackingStatus: string,
    estimatedDelivery: string,
    details: seq<TrackingDetail>,
    recipient: RecipientInfo,
    currentLocation: LocationInfo)

  /** Go's zero values of the structs (`var pd PackageDetails`, `PackageDetails{}`). */
  const ZeroRecipient := RecipientInfo(0, "", "", "")
  const ZeroLocation := LocationInfo(0, "", "", "")
  const ZeroPackage := PackageDetails("", "", "", [], ZeroRecipient, ZeroLocation)
}
