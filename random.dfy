/**
 * The `/random` page (main.py:243-266): one call to the random-activity
 * service, normalised like an aggregator entry but with the link instead of
 * the accessibility score; `None` (the "unavailable" state) when the call
 * raises, the status is not 200, or the payload cannot be normalised.
 */
module RandomPage {
  import opened Wrappers
  import opened PyJson
  import opened Http
  import opened Normalise
  import opened Suggestions

  datatype RandomActivity = RandomActivity(text: Value, category: string, participants: Value, price: Price, link: Value)

  function SharedFields(a: RandomActivity): ActivityFields {
    ActivityFields(a.text, a.category, a.participants, a.price)
  }

  /**
   * The `activity` the page renders. It exists exactly when one aggregator
   * attempt on the same outcome would append an entry, and then carries the
   * same text, category, participants and price: the two call sites
   * normalise alike.
   */
  function RandomActivityOf(o: Outcome): (r: Option<RandomActivity>)
    ensures r.Some? <==> ActivityStep(o).Append?
    ensures r.Some? ==> SharedFields(r.value) == FieldsOf(ActivityStep(o).entry)
    ensures r.Some? ==> Delivered(o) && Payload(o).Obj? && NormalisedFrom(Payload(o).fields, SharedFields(r.value))
    ensures r.Some? ==> Defaulted(Payload(o).fields, "link", Str(""), r.value.link)
  {
    match Fetch(o)
    case Raise(_) => None
    case Ok(None) => None
    case Ok(Some(data)) =>
      match NormaliseActivity(data)
      case Raise(_) => None
      case Ok(a) => Some(RandomActivity(a.text, a.category, a.participants, a.price, Get(data.fields, "link", Str(""))))
  }
}
