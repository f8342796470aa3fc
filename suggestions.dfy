/**
 * `get_api_suggestions` (main.py:8-57): three calls to the random-activity
 * service inside one `try`, then one guarded call to the advice service and
 * one to the quote service. The network is replaced by the outcomes the calls
 * would meet.
 */
module Suggestions {
  import opened Wrappers
  import opened PyJson
  import opened Http
  import opened Normalise

  datatype Suggestion =
    | Activity(text: Value, category: string, participants: Value, price: Price, accessibility: Value)
    | Advice(text: Value, id: Value)
    | Quote(text: Value, author: Value)

  /** What one guarded block does: append one entry, append nothing, or raise (caught by its `except`). */
  datatype Step = Append(entry: Suggestion) | Skip | Fail(error: Exception)

  /** `for _ in range(3)` */
  const ActivityCalls: nat := 3

  /** Output order: activities, then advice, then the quote. */
  function Rank(s: Suggestion): nat {
    match s
    case Activity(_, _, _, _, _) => 0
    case Advice(_, _) => 1
    case Quote(_, _) => 2
  }

  /** The shared fields of an activity entry. */
  function FieldsOf(s: Suggestion): ActivityFields
    requires s.Activity?
  {
    ActivityFields(s.text, s.category, s.participants, s.price)
  }

  /** One iteration of the activity loop (main.py:15-25); ActivityStepMeaning states what it does. */
  function ActivityStep(o: Outcome): Step
  {
    match Fetch(o)
    case Raise(e) => Fail(e)
    case Ok(None) => Skip
    case Ok(Some(data)) =>
      match NormaliseActivity(data)
      case Raise(e) => Fail(e)
      case Ok(a) => Append(Activity(a.text, a.category, a.participants, a.price, Get(data.fields, "accessibility", Num(0))))
  }

  /**
   * An activity call is skipped exactly when its status is not 200. It raises
   * exactly when the request raises or a 200 body is unparseable, not an
   * object, or carries a type that is not a string. Otherwise it appends one
   * Activity entry normalised from the payload.
   */
  lemma ActivityStepMeaning(o: Outcome)
    ensures ActivityStep(o).Skip? <==> o.Got? && o.response.status != 200
    ensures ActivityStep(o).Fail? <==> o.Raised? || (o.response.status == 200 && !(o.response.body.Some? && o.response.body.value.Obj? && TypeIsString(o.response.body.value.fields)))
    ensures ActivityStep(o).Append? ==> Delivered(o) && Payload(o).Obj? && ActivityStep(o).entry.Activity?
    ensures ActivityStep(o).Append? ==> NormalisedFrom(Payload(o).fields, FieldsOf(ActivityStep(o).entry))
    ensures ActivityStep(o).Append? ==> Defaulted(Payload(o).fields, "accessibility", Num(0), ActivityStep(o).entry.accessibility)
  {
  }

  /** The advice block (main.py:31-39): `"slip" in data`, then `data["slip"].get(...)`; AdviceStepMeaning states what it does. */
  function AdviceStep(o: Outcome): Step
  {
    match Fetch(o)
    case Raise(e) => Fail(e)
    case Ok(None) => Skip
    case Ok(Some(data)) =>
      match data
      case Obj(fields) =>
        if "slip" !in fields then Skip
        else if !fields["slip"].Obj? then Fail(AttributeError)
        else
          var slip := fields["slip"].fields;
          Append(Advice(Get(slip, "advice", Str("")), Get(slip, "id", Num(0))))
      // On a list `in` tests membership and `data["slip"]` is a TypeError;
      // on a string `in` tests for a substring; on a number, bool or null `in` is a TypeError.
      case Arr(items) => if Str("slip") in items then Fail(TypeError) else Skip
      case Str(s) => if IsInfix("slip", s) then Fail(TypeError) else Skip
      case _ => Fail(TypeError)
  }

  /** The quote block (main.py:45-53): `if data and len(data) > 0`, then `data[0].get(...)`; QuoteStepMeaning states what it does. */
  function QuoteStep(o: Outcome): Step
  {
    match Fetch(o)
    case Raise(e) => Fail(e)
    case Ok(None) => Skip
    case Ok(Some(data)) =>
      if !Truthy(data) then Skip
      else
        match data
        case Arr(items) =>
          if items[0].Obj? then
            var first := items[0].fields;
            Append(Quote(Get(first, "q", Str("")), Get(first, "a", Str("Unknown"))))
          else Fail(AttributeError)
        // `len` of a number or bool is a TypeError; `data[0]` of a dict is a
        // KeyError; `data[0]` of a string is a one-character string without `.get`.
        case Obj(_) => Fail(KeyError)
        case Str(_) => Fail(AttributeError)
        case _ => Fail(TypeError)
  }

  /**
   * The advice entry is appended exactly when the call returns a 200 object
   * holding an object under "slip"; its text defaults to "" and its id to 0.
   */
  lemma AdviceStepMeaning(o: Outcome)
    ensures AdviceStep(o).Append? <==> Delivered(o) && Payload(o).Obj? && "slip" in Payload(o).fields && Payload(o).fields["slip"].Obj?
    ensures AdviceStep(o).Append? ==> AdviceStep(o).entry.Advice?
    ensures AdviceStep(o).Append? ==> Defaulted(Payload(o).fields["slip"].fields, "advice", Str(""), AdviceStep(o).entry.text)
    ensures AdviceStep(o).Append? ==> Defaulted(Payload(o).fields["slip"].fields, "id", Num(0), AdviceStep(o).entry.id)
  {
  }

  /**
   * The quote entry is appended exactly when the call returns a 200 non-empty
   * list whose first element is an object; its text defaults to "" and its
   * author to "Unknown".
   */
  lemma QuoteStepMeaning(o: Outcome)
    ensures QuoteStep(o).Append? <==> Delivered(o) && Payload(o).Arr? && |Payload(o).items| > 0 && Payload(o).items[0].Obj?
    ensures QuoteStep(o).Append? ==> QuoteStep(o).entry.Quote?
    ensures QuoteStep(o).Append? ==> Defaulted(Payload(o).items[0].fields, "q", Str(""), QuoteStep(o).entry.text)
    ensures QuoteStep(o).Append? ==> Defaulted(Payload(o).items[0].fields, "a", Str("Unknown"), QuoteStep(o).entry.author)
  {
  }

  /** What a guarded block contributes to the list. */
  function Entries(st: Step): (r: seq<Suggestion>)
    ensures |r| <= 1
    ensures r != [] <==> st.Append?
  {
    if st.Append? then [st.entry] else []
  }

  /**
   * The entries the activity loop appends: the loop stops at the first call
   * that raises, since the `try` encloses the whole loop.
   */
  function ActivityEntries(attempts: seq<Outcome>): (r: seq<Suggestion>)
    ensures |r| <= |attempts|
    ensures forall e :: e in r ==> e.Activity?
  {
    if attempts == [] then []
    else
      match ActivityStep(attempts[0])
      case Append(e) => [e] + ActivityEntries(attempts[1..])
      case Skip => ActivityEntries(attempts[1..])
      case Fail(_) => []
  }

  /** One iteration of the loop keeps its invariant: what is appended so far plus what the remaining calls append is the whole. */
  lemma ActivityEntriesFrom(attempts: seq<Outcome>, i: int, sofar: seq<Suggestion>)
    requires 0 <= i < |attempts|
    requires sofar + ActivityEntries(attempts[i..]) == ActivityEntries(attempts)
    ensures ActivityStep(attempts[i]).Fail? ==> sofar == ActivityEntries(attempts)
    ensures ActivityStep(attempts[i]).Skip? ==> sofar + ActivityEntries(attempts[i + 1..]) == ActivityEntries(attempts)
    ensures ActivityStep(attempts[i]).Append? ==>
      (sofar + [ActivityStep(attempts[i]).entry]) + ActivityEntries(attempts[i + 1..]) == ActivityEntries(attempts)
  {
    assert attempts[i..][1..] == attempts[i + 1..];
    assert attempts[i..][0] == attempts[i];
  }

  /** The list `get_api_suggestions` returns, as a function of what the five calls meet. */
  function Aggregate(attempts: seq<Outcome>, advice: Outcome, quote: Outcome): seq<Suggestion> {
    ActivityEntries(attempts) + Entries(AdviceStep(advice)) + Entries(QuoteStep(quote))
  }

  /**
   * At most one entry per activity call plus one advice and one quote;
   * activities come first, then the advice, then the quote.
   */
  lemma AggregateShape(attempts: seq<Outcome>, advice: Outcome, quote: Outcome)
    ensures |Aggregate(attempts, advice, quote)| <= |attempts| + 2
    ensures var r := Aggregate(attempts, advice, quote);
            forall i, j :: 0 <= i < j < |r| ==> Rank(r[i]) < Rank(r[j]) || (r[i].Activity? && r[j].Activity?)
  {
    var acts := ActivityEntries(attempts);
    assert forall k :: 0 <= k < |acts| ==> acts[k] in acts;
  }

  /**
   * The aggregator itself: the activity block, then the advice block, then the
   * quote block. It never raises: every failure is absorbed by one of the
   * three `except` blocks.
   */
  method GetSuggestions(attempts: seq<Outcome>, advice: Outcome, quote: Outcome) returns (suggestions: seq<Suggestion>)
    requires |attempts| == ActivityCalls
    ensures suggestions == Aggregate(attempts, advice, quote)
    ensures |suggestions| <= 5
  {
    suggestions := [];
    // The first `try` encloses the whole loop.
    var i := 0;
    while i < ActivityCalls
      invariant 0 <= i <= ActivityCalls
      invariant suggestions + ActivityEntries(attempts[i..]) == ActivityEntries(attempts)
      decreases ActivityCalls - i
    {
      ActivityEntriesFrom(attempts, i, suggestions);
      match ActivityStep(attempts[i]) {
        case Append(entry) =>
          suggestions := suggestions + [entry];
        case Skip =>
        case Fail(_) =>
          // the exception leaves the loop: the remaining calls are not made
          break;
      }
      i := i + 1;
    }
    assert suggestions == ActivityEntries(attempts);
    match AdviceStep(advice) {
      case Append(entry) => suggestions := suggestions + [entry];
      case _ =>
    }
    match QuoteStep(quote) {
      case Append(entry) => suggestions := suggestions + [entry];
      case _ =>
    }
    AggregateShape(attempts, advice, quote);
  }

  /** The index of the first activity call that raises, or the number of calls when none does. */
  function FirstFailure(attempts: seq<Outcome>): (k: nat)
    ensures k <= |attempts|
    ensures forall j :: 0 <= j < k ==> !ActivityStep(attempts[j]).Fail?
    ensures k < |attempts| ==> ActivityStep(attempts[k]).Fail?
  {
    if attempts == [] || ActivityStep(attempts[0]).Fail? then 0
    else 1 + FirstFailure(attempts[1..])
  }

  /**
   * What the activity calls would contribute if each were guarded on its own:
   * one entry per call that succeeds, whatever the others do.
   */
  function PerCallEntries(attempts: seq<Outcome>): (r: seq<Suggestion>)
    ensures |r| <= |attempts|
  {
    if attempts == [] then [] else Entries(ActivityStep(attempts[0])) + PerCallEntries(attempts[1..])
  }

  /**
   * The loop keeps the entries of the calls before the first one that raises
   * and makes no call after it: up to that call, each 200 response appends
   * exactly one entry and each other status appends none.
   */
  lemma {:induction false} ActivityEntriesUpToFirstFailure(attempts: seq<Outcome>)
    ensures ActivityEntries(attempts) == PerCallEntries(attempts[..FirstFailure(attempts)])
  {
    if attempts != [] && !ActivityStep(attempts[0]).Fail? {
      var k := FirstFailure(attempts);
      assert attempts[..k][0] == attempts[0];
      assert attempts[..k][1..] == attempts[1..][..k - 1];
      ActivityEntriesUpToFirstFailure(attempts[1..]);
    }
  }

  /** The outcomes of the calls after the first one that raises do not matter: those calls are never made. */
  lemma {:induction false} CallsAfterFailureIgnored(attempts: seq<Outcome>, later: seq<Outcome>)
    requires FirstFailure(attempts) < |attempts|
    ensures ActivityEntries(attempts[..FirstFailure(attempts) + 1] + later) == ActivityEntries(attempts)
  {
    var k := FirstFailure(attempts);
    var other := attempts[..k + 1] + later;
    assert other[..k + 1] == attempts[..k + 1];
    assert forall j :: 0 <= j <= k ==> other[j] == attempts[j];
    ActivityEntriesUpToFirstFailure(attempts);
    ActivityEntriesUpToFirstFailure(other);
    FirstFailureOfPrefix(attempts, other, k);
    assert other[..k] == attempts[..k];
  }

  /** Two call sequences that agree up to and including index `k`, where the first raises, fail first at the same call. */
  lemma FirstFailureOfPrefix(a: seq<Outcome>, b: seq<Outcome>, k: nat)
    requires k == FirstFailure(a) < |a| && k < |b|
    requires forall j :: 0 <= j <= k ==> b[j] == a[j]
    ensures FirstFailure(b) == k
  {
  }

  /** When no activity call raises, every call contributes on its own. */
  lemma NoFailureMeansPerCall(attempts: seq<Outcome>)
    requires forall j :: 0 <= j < |attempts| ==> !ActivityStep(attempts[j]).Fail?
    ensures ActivityEntries(attempts) == PerCallEntries(attempts)
  {
    ActivityEntriesUpToFirstFailure(attempts);
    var k := FirstFailure(attempts);
    assert k == |attempts|;
    assert attempts[..k] == attempts;
  }

  /** A raise on the first activity call loses the two calls after it, even when they would succeed. */
  lemma FirstCallRaisingLosesTheRest(ok: Outcome)
    requires ActivityStep(ok).Append?
    ensures Aggregate([Raised, ok, ok], Raised, Raised) == []
    ensures |PerCallEntries([Raised, ok, ok])| == 2
  {
    assert [Raised, ok, ok][1..] == [ok, ok];
    assert [ok, ok][1..] == [ok];
    assert PerCallEntries([ok]) == [ActivityStep(ok).entry];
    assert PerCallEntries([ok, ok]) == [ActivityStep(ok).entry, ActivityStep(ok).entry];
  }

  /** Three successful activity calls, a failed advice call and a one-element quote list give four entries. */
  lemma JugglingExample(fields: map<string, Value>, quoted: map<string, Value>)
    requires fields == map["activity" := Str("Learn juggling"), "type" := Str("recreational"),
                           "participants" := Num(1), "price" := Num(0)]
    requires quoted == map["q" := Str("Stay curious."), "a" := Str("Anon")]
    ensures var ok := Got(Response(200, Some(Obj(fields))));
            var quote := Got(Response(200, Some(Arr([Obj(quoted)]))));
            var entry := Activity(Str("Learn juggling"), "Recreational", Num(1), Free, Num(0));
            Aggregate([ok, ok, ok], Raised, quote) == [entry, entry, entry, Quote(Str("Stay curious."), Str("Anon"))]
  {
    var ok := Got(Response(200, Some(Obj(fields))));
    var entry := Activity(Str("Learn juggling"), "Recreational", Num(1), Free, Num(0));
    JugglingCall(fields);
    assert [ok, ok, ok][1..] == [ok, ok];
    assert [ok, ok][1..] == [ok];
    assert [ok][1..] == [];
    assert ActivityEntries([ok]) == [entry];
    assert ActivityEntries([ok, ok]) == [entry, entry];
    assert ActivityEntries([ok, ok, ok]) == [entry, entry, entry];
    assert Get(quoted, "q", Str("")) == Str("Stay curious.");
    assert Get(quoted, "a", Str("Unknown")) == Str("Anon");
  }

  lemma JugglingCall(fields: map<string, Value>)
    requires fields == map["activity" := Str("Learn juggling"), "type" := Str("recreational"),
                           "participants" := Num(1), "price" := Num(0)]
    ensures ActivityStep(Got(Response(200, Some(Obj(fields))))) == Append(Activity(Str("Learn juggling"), "Recreational", Num(1), Free, Num(0)))
  {
    JugglingNormalised(fields);
  }

  /** A quote body that is a bare object, not a list, raises KeyError at `data[0]` and contributes nothing. */
  lemma BareQuoteObjectIgnored()
    ensures QuoteStep(Got(Response(200, Some(Obj(map["q" := Str("Stay curious."), "a" := Str("Anon")]))))) == Fail(KeyError)
  {
    var quoted := map["q" := Str("Stay curious."), "a" := Str("Anon")];
    assert "q" in quoted;
    assert Truthy(Obj(quoted));
  }
}
