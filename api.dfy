/**
 * The JSON shapes exchanged between the page and the `/predict` endpoint.
 * The backend's response model and the frontend's `PredictionResult`
 * interface declare the same three fields.
 */
module Api {

  /** One element of `history`: an object with one `traffic_condition` field. */
  datatype HistoryEntry = HistoryEntry(trafficCondition: string)

  /** The body of a successful `/predict` response. */
  datatype PredictionResult = PredictionResult(
    trafficCondition: string,
    trafficRule: string,
    history: seq<HistoryEntry>)
}
