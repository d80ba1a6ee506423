/** Records grouped by service, as the backend's `groupby('service')` and
    the client's per-service `Map` do. */
module ByService {
  import opened Grouping
  import opened CostModel

  /** One service and its summed cost. */
  type ServiceTotal = Bucket<string, ()>

  function ServiceItems(costData: seq<CostDataPoint>): (r: seq<Item<string, ()>>)
    ensures |r| == |costData|
    ensures forall i :: 0 <= i < |costData| ==> r[i] == Item(costData[i].service, (), costData[i].cost)
  {
    seq(|costData|, i requires 0 <= i < |costData| => Item(costData[i].service, (), costData[i].cost))
  }

  /** The services that occur in the records. */
  function Services(costData: seq<CostDataPoint>): set<string>
  {
    KeysOf(ServiceItems(costData))
  }

  /** The summed cost of one service's records. */
  function ServiceCost(costData: seq<CostDataPoint>, service: string): real
  {
    TotalFor(ServiceItems(costData), service)
  }
}
