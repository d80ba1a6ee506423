/** The records the dashboard passes around (the interfaces of the client
    store). Costs and savings are exact reals; dates and timestamps are the
    strings the records carry. */
module CostModel {
  import opened Common

  /** The `'low' | 'medium' | 'high'` scale shared by severity, effort and risk. */
  datatype Level = Low | Medium | High

  datatype Status = Pending | Implemented | Ignored

  datatype Role = User | Assistant

  datatype CostDataPoint = CostDataPoint(
    date: string,
    service: string,
    region: string,
    cost: real,
    tags: Option<map<string, string>>,
    resourceId: Option<string>)

  datatype Anomaly = Anomaly(
    id: string,
    date: string,
    service: string,
    severity: Level,
    description: string,
    impact: real,
    identified: string)

  datatype Recommendation = Recommendation(
    id: string,
    title: string,
    description: string,
    estimatedSavings: real,
    effortLevel: Level,
    risk: Level,
    category: string,
    status: Status,
    createdAt: string)

  datatype ChatMessage = ChatMessage(
    id: string,
    role: Role,
    content: string,
    timestamp: string)

  /** The costs of the records, in order. */
  function Costs(costData: seq<CostDataPoint>): (r: seq<real>)
    ensures |r| == |costData|
    ensures forall i :: 0 <= i < |costData| ==> r[i] == costData[i].cost
  {
    seq(|costData|, i requires 0 <= i < |costData| => costData[i].cost)
  }
}
