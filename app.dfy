/** The scoring-and-logging block that runs when "Predict Customer Segment"
    is clicked (ml_app1.py:96-152). The scaler and the k-means model are
    foreign: the cluster they predict and the distance vector they return are
    inputs here. */
module App {
  import opened Wrappers
  import opened Customer
  import opened Scoring
  import opened Persona
  import opened MicroInsights
  import opened PredictionLog

  /** What the block shows: the cluster, the confidence, the card and the
      insight lines. */
  datatype Prediction = Prediction(
    cluster: int,
    confidence: Option<real>,
    card: Card,
    insights: seq<string>)

  /** Score one customer and append the prediction to the log.
      `kmeans.predict` returns one of the K centroids whose distances
      `kmeans.transform` reports, hence the `requires`. */
  method Predict(store: LogStore, f: Features, cluster: int, distances: seq<real>)
    returns (p: Prediction)
    requires 0 <= cluster < |distances|
    modifies store
    ensures p.cluster == cluster
    ensures p.confidence == Confidence(distances, cluster)
    ensures NonNegative(distances) && Sum(distances) > 0.0 ==>
      p.confidence.Some? && 0.0 <= p.confidence.value <= 100.0
    ensures p.card == Describe(cluster)
    ensures p.insights == Messages(cluster, f)
    ensures |p.insights| <= 1
    ensures store.file == Some(Appended(old(store.file), MakeRecord(f, cluster, p.confidence)))
    ensures |Rows(store.file)| == |Rows(old(store.file))| + 1
  {
    var confidence := Confidence(distances, cluster);
    if NonNegative(distances) && Sum(distances) > 0.0 {
      ConfidenceInRange(distances, cluster);
    }
    var card := Describe(cluster);
    var lines := Messages(cluster, f);
    var record := MakeRecord(f, cluster, confidence);
    store.Append(record);
    p := Prediction(cluster, confidence, card, lines);
  }
}
