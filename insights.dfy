/** The micro-insight rules written under the result card
    (ml_app1.py:126-132): three independent guards over the cluster id and
    the raw inputs, each emitting one fixed message. */
module MicroInsights {
  import opened Customer
  import opened Persona

  datatype Insight = SupportFrustration | RecoverableChurn | OnboardingGap

  function Message(i: Insight): string {
    match i
    case SupportFrustration =>
      "\U{1F50D} High-value but frustrated customer \U{2014} fix support urgently."
    case RecoverableChurn =>
      "\U{1F50D} Recoverable churn risk \U{2014} valuable customer worth retaining."
    case OnboardingGap =>
      "\U{1F50D} Onboarding gap \U{2014} new customer may not understand the product yet."
  }

  /** The insights that fire, in the order the guards are tested. Each
      threshold is strict, and since the guards ask for different cluster ids
      at most one fires; an id of 3 or more fires none. */
  function Insights(cluster: int, f: Features): (r: seq<Insight>)
    ensures SupportFrustration in r <==> cluster == 0 && f.supportTickets > 3
    ensures RecoverableChurn in r <==> cluster == 1 && f.totalRevenue > 15000.0
    ensures OnboardingGap in r <==> cluster == 2 && f.tenureMonths < 6
    ensures |r| <= 1
    ensures (cluster < 0 || cluster > 2) ==> r == []
  {
    (if cluster == 0 && f.supportTickets > 3 then [SupportFrustration] else [])
    + (if cluster == 1 && f.totalRevenue > 15000.0 then [RecoverableChurn] else [])
    + (if cluster == 2 && f.tenureMonths < 6 then [OnboardingGap] else [])
  }

  /** The lines written for a scored customer: each guard's fixed line
      appears exactly when its condition holds, and at most one line is
      written. */
  function Messages(cluster: int, f: Features): (m: seq<string>)
    ensures Message(SupportFrustration) in m <==> cluster == 0 && f.supportTickets > 3
    ensures Message(RecoverableChurn) in m <==> cluster == 1 && f.totalRevenue > 15000.0
    ensures Message(OnboardingGap) in m <==> cluster == 2 && f.tenureMonths < 6
    ensures |m| <= 1
    ensures |m| == |Insights(cluster, f)|
    ensures forall k :: 0 <= k < |m| ==> m[k] == Message(Insights(cluster, f)[k])
  {
    MessageInjective(SupportFrustration, RecoverableChurn);
    MessageInjective(SupportFrustration, OnboardingGap);
    MessageInjective(RecoverableChurn, OnboardingGap);
    var ins := Insights(cluster, f);
    // At most one insight fires, so at most one line is written.
    if ins == [] then [] else [Message(ins[0])]
  }

  /** Distinct insights print distinct messages. */
  lemma MessageInjective(i: Insight, j: Insight)
    ensures Message(i) == Message(j) <==> i == j
  {
    MessageKey(i);
    MessageKey(j);
  }

  /** The three messages have different lengths. */
  lemma MessageKey(i: Insight)
    ensures |Message(i)| == (match i case SupportFrustration => 60 case RecoverableChurn => 61 case OnboardingGap => 67)
  {
    match i
    case SupportFrustration =>
    case RecoverableChurn =>
    case OnboardingGap =>
  }

  /** An insight only fires for the persona it speaks about. */
  lemma InsightMatchesPersona(cluster: int, f: Features, i: Insight)
    requires i in Insights(cluster, f)
    ensures i == SupportFrustration ==> PersonaOf(cluster) == LoyalPremium
    ensures i == RecoverableChurn ==> PersonaOf(cluster) == HighChurnRisk
    ensures i == OnboardingGap ==> PersonaOf(cluster) == LowValue
  {
  }

  /** A cluster id of 3 or more shares the low-value persona with cluster 2
      but never gets the onboarding insight. */
  lemma HighClusterSharesPersonaButNoInsight(cluster: int, f: Features)
    requires cluster >= 3
    ensures PersonaOf(cluster) == PersonaOf(2) == LowValue
    ensures Insights(cluster, f) == []
  {
  }

  /** The thresholds are strict: 3 tickets, revenue 15000 and a tenure of 6
      months are each just outside their rule. */
  lemma ThresholdsAreStrict(f: Features)
    ensures f.supportTickets == 3 ==> Insights(0, f) == []
    ensures f.supportTickets == 4 ==> Insights(0, f) == [SupportFrustration]
    ensures f.totalRevenue == 15000.0 ==> Insights(1, f) == []
    ensures f.tenureMonths == 6 ==> Insights(2, f) == []
    ensures f.tenureMonths == 5 ==> Insights(2, f) == [OnboardingGap]
  {
  }

  /** The sample customer (one ticket, revenue 18890, 26 months) triggers the
      recoverable-churn insight when placed in cluster 1 and nothing else. */
  lemma SampleInsights(cluster: int)
    ensures Insights(cluster, Sample) == if cluster == 1 then [RecoverableChurn] else []
  {
  }
}
