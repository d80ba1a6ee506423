/** The client-side store: one object holding the cost records, anomalies,
    recommendations, chat history and the loading flag, changed only through
    its actions. */
module CostStore {
  import opened CostModel

  /** Every field of the store at one moment. */
  datatype StoreState = StoreState(
    costData: seq<CostDataPoint>,
    anomalies: seq<Anomaly>,
    recommendations: seq<Recommendation>,
    chatMessages: seq<ChatMessage>,
    isLoading: bool)

  /** The state the store is created with and that `reset` restores. */
  const Initial := StoreState([], [], [], [], false)

  /** The new recommendations list of `updateRecommendationStatus`: the same
      items in the same order, where only the status of the items carrying
      `id` becomes `status`. */
  function WithStatus(recs: seq<Recommendation>, id: string, status: Status): (r: seq<Recommendation>)
    ensures |r| == |recs|
    ensures forall i :: 0 <= i < |recs| ==>
      r[i] == recs[i].(status := r[i].status)
      && (recs[i].id == id ==> r[i].status == status)
      && (recs[i].id != id ==> r[i] == recs[i])
  {
    seq(|recs|, i requires 0 <= i < |recs| =>
      if recs[i].id == id then recs[i].(status := status) else recs[i])
  }

  /** An id that no item carries leaves the list as it was. */
  lemma WithStatusUnknownId(recs: seq<Recommendation>, id: string, status: Status)
    requires forall i :: 0 <= i < |recs| ==> recs[i].id != id
    ensures WithStatus(recs, id, status) == recs
  {
  }

  lemma WithStatusIdempotent(recs: seq<Recommendation>, id: string, status: Status)
    ensures WithStatus(WithStatus(recs, id, status), id, status) == WithStatus(recs, id, status)
  {
  }

  /** The store itself allows any status to follow any other, including a
      return to pending. */
  lemma WithStatusAnyTransition(recs: seq<Recommendation>, i: nat, status: Status)
    requires i < |recs|
    ensures WithStatus(recs, recs[i].id, status)[i].status == status
    ensures WithStatus(recs, recs[i].id, status)[i] == recs[i].(status := status)
  {
  }

  class Store {
    var costData: seq<CostDataPoint>
    var anomalies: seq<Anomaly>
    var recommendations: seq<Recommendation>
    var chatMessages: seq<ChatMessage>
    var isLoading: bool

    function State(): StoreState
      reads this
    {
      StoreState(costData, anomalies, recommendations, chatMessages, isLoading)
    }

    constructor ()
      ensures State() == Initial
    {
      costData, anomalies, recommendations, chatMessages := [], [], [], [];
      isLoading := false;
    }

    method SetCostData(data: seq<CostDataPoint>)
      modifies this
      ensures State() == old(State()).(costData := data)
    {
      costData := data;
    }

    method SetAnomalies(items: seq<Anomaly>)
      modifies this
      ensures State() == old(State()).(anomalies := items)
    {
      anomalies := items;
    }

    method SetRecommendations(items: seq<Recommendation>)
      modifies this
      ensures State() == old(State()).(recommendations := items)
    {
      recommendations := items;
    }

    method UpdateRecommendationStatus(id: string, status: Status)
      modifies this
      ensures State() == old(State()).(recommendations := WithStatus(old(recommendations), id, status))
    {
      recommendations := WithStatus(recommendations, id, status);
    }

    /** Appends: one more message, the new one last, the earlier ones untouched. */
    method AddChatMessage(message: ChatMessage)
      modifies this
      ensures State() == old(State()).(chatMessages := old(chatMessages) + [message])
      ensures |chatMessages| == |old(chatMessages)| + 1
      ensures chatMessages[|chatMessages| - 1] == message
      ensures chatMessages[..|old(chatMessages)|] == old(chatMessages)
    {
      chatMessages := chatMessages + [message];
    }

    method SetLoading(loading: bool)
      modifies this
      ensures State() == old(State()).(isLoading := loading)
    {
      isLoading := loading;
    }

    method Reset()
      modifies this
      ensures State() == Initial
    {
      costData, anomalies, recommendations, chatMessages := [], [], [], [];
      isLoading := false;
    }
  }
}
