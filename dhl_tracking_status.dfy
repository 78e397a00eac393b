/**
 * The DHL carrier status codes, the application's internal shipment
 * statuses, and the fixed table that maps the former onto the latter.
 */
module DhlTrackingStatus {

  // Carrier status codes.
  const PreTransit: string := "pre-transit"
  const Transit: string := "transit"
  const Delivered: string := "delivered"
  const Failure: string := "failure"
  const Unknown: string := "unknown"

  // Internal statuses.
  const StatusPreparing: string := "preparing"
  const StatusInTransit: string := "in_transit"
  const StatusDelivered: string := "delivered"
  const StatusShipped: string := "shipped"

  /** Carrier code -> internal status. */
  const StatusMap: map<string, string> := map[
    PreTransit := StatusPreparing,
    Transit := StatusInTransit,
    Delivered := StatusDelivered,
    Failure := StatusShipped,
    Unknown := StatusShipped
  ]

  const InternalStatuses: set<string> := {StatusPreparing, StatusInTransit, StatusDelivered, StatusShipped}

  /** The five documented carrier codes map to their documented statuses. */
  lemma StatusMapEntries()
    ensures StatusMap[PreTransit] == "preparing"
    ensures StatusMap[Transit] == "in_transit"
    ensures StatusMap[Delivered] == "delivered" == Delivered
    ensures StatusMap[Failure] == "shipped"
    ensures StatusMap[Unknown] == "shipped"
  {
  }

  /** The table has exactly the five carrier codes as keys, and every value
      is one of the four internal statuses, each of which is reached. */
  lemma StatusMapShape()
    ensures StatusMap.Keys == {"pre-transit", "transit", "delivered", "failure", "unknown"}
    ensures |StatusMap| == 5
    ensures StatusMap.Values == InternalStatuses
    ensures |InternalStatuses| == 4
  {
    var keys := {"pre-transit", "transit", "delivered", "failure", "unknown"};
    assert StatusMap.Keys == keys;
    assert "pre-transit" != "transit" && "transit" != "delivered" && "delivered" != "failure";
    assert "failure" != "unknown" && "pre-transit" != "delivered" && "unknown" != "transit";
    assert |keys - {"unknown"}| == 4 by {
      assert |keys - {"unknown"} - {"failure"}| == 3 by {
        assert keys - {"unknown"} - {"failure"} == {"pre-transit", "transit", "delivered"};
      }
    }
    assert StatusMap.Values == InternalStatuses by {
      assert StatusMap[PreTransit] in StatusMap.Values;
      assert StatusMap[Transit] in StatusMap.Values;
      assert StatusMap[Delivered] in StatusMap.Values;
      assert StatusMap[Failure] in StatusMap.Values;
    }
    assert "preparing" != "in_transit" && "in_transit" != "delivered" && "delivered" != "shipped";
    assert "preparing" != "delivered" && "preparing" != "shipped" && "in_transit" != "shipped";
  }

  /** Two carrier codes share a status: the table is not injective, so an
      internal status does not determine the carrier code. */
  lemma StatusMapNotInjective()
    ensures exists a, b :: a in StatusMap && b in StatusMap && a != b && StatusMap[a] == StatusMap[b]
  {
    assert Failure != Unknown && StatusMap[Failure] == StatusMap[Unknown];
  }
}
