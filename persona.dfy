/** The mapping from cluster id to persona, recommendation and card colour
    (ml_app1.py:107-119). */
module Persona {

  /** The persona segments: the three branches of the if/elif chain. */
  datatype Segment = LoyalPremium | HighChurnRisk | LowValue

  /** What the result card shows for a persona. */
  datatype Card = Card(name: string, recommendation: string, colour: string)

  /** Cluster 0 and cluster 1 have their own persona; every other id falls
      into the low-value branch. */
  function PersonaOf(cluster: int): (p: Segment)
    ensures p == LoyalPremium <==> cluster == 0
    ensures p == HighChurnRisk <==> cluster == 1
    ensures p == LowValue <==> cluster != 0 && cluster != 1
  {
    if cluster == 0 then LoyalPremium
    else if cluster == 1 then HighChurnRisk
    else LowValue
  }

  function CardOf(p: Segment): Card {
    match p
    case LoyalPremium =>
      Card("\U{1F48E} Loyal Premium Customer",
           "Offer loyalty rewards, personalized premium benefits & upsell.",
           "#2ecc71")
    case HighChurnRisk =>
      Card("\U{26A0}\U{FE0F} High Churn Risk Customer",
           "Provide discounts, priority support & retention call.",
           "#f1c40f")
    case LowValue =>
      Card("\U{1F4C9} Low Usage / Low Value Customer",
           "Educate via onboarding tutorials & increase product awareness.",
           "#e74c3c")
  }

  /** The (persona, rec, color) triple the scoring block assigns to a cluster. */
  function Describe(cluster: int): Card {
    CardOf(PersonaOf(cluster))
  }

  /** The mapping is total and follows the three branches exactly. */
  lemma DescribeBranches(cluster: int)
    ensures cluster == 0 ==>
      Describe(cluster) == Card("\U{1F48E} Loyal Premium Customer",
                                "Offer loyalty rewards, personalized premium benefits & upsell.",
                                "#2ecc71")
    ensures cluster == 1 ==>
      Describe(cluster) == Card("\U{26A0}\U{FE0F} High Churn Risk Customer",
                                "Provide discounts, priority support & retention call.",
                                "#f1c40f")
    ensures cluster != 0 && cluster != 1 ==>
      Describe(cluster) == Card("\U{1F4C9} Low Usage / Low Value Customer",
                                "Educate via onboarding tutorials & increase product awareness.",
                                "#e74c3c")
  {
  }

  /** The three colours are pairwise distinct (they differ in their second
      character), and so are the names (in their leading symbol). */
  lemma CardsDiffer(p: Segment, q: Segment)
    requires p != q
    ensures CardOf(p).colour != CardOf(q).colour
    ensures CardOf(p).name != CardOf(q).name
  {
    CardKey(p);
    CardKey(q);
  }

  /** The character that tells each colour, and each name, apart. */
  lemma CardKey(p: Segment)
    ensures |CardOf(p).colour| > 1 && |CardOf(p).name| > 0
    ensures CardOf(p).colour[1] == match p case LoyalPremium => '2' case HighChurnRisk => 'f' case LowValue => 'e'
    ensures CardOf(p).name[0] == match p case LoyalPremium => '\U{1F48E}' case HighChurnRisk => '\U{26A0}' case LowValue => '\U{1F4C9}'
  {
    match p
    case LoyalPremium =>
    case HighChurnRisk =>
    case LowValue =>
  }

  /** Each cluster gets exactly one card, and the colour alone tells which
      persona a cluster was given; so does the name. */
  lemma ColourIdentifiesPersona(a: int, b: int)
    ensures Describe(a).colour == Describe(b).colour <==> PersonaOf(a) == PersonaOf(b)
    ensures Describe(a).name == Describe(b).name <==> PersonaOf(a) == PersonaOf(b)
    ensures Describe(a) == Describe(b) <==> PersonaOf(a) == PersonaOf(b)
  {
    if PersonaOf(a) != PersonaOf(b) {
      CardsDiffer(PersonaOf(a), PersonaOf(b));
    }
  }
}
