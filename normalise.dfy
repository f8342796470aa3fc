/**
 * The normalisation of an activity payload, built the same way by the
 * aggregator (main.py:18-25) and by the random page (main.py:252-258): text,
 * capitalized type, participants and a Free/Paid price.
 */
module Normalise {
  import opened PyJson
  import opened Text

  datatype Price = Free | Paid

  /** The fields both call sites build from one payload. */
  datatype ActivityFields = ActivityFields(text: Value, category: string, participants: Value, price: Price)

  /**
   * `a` is the normalisation of the payload `fields`: defaults for missing
   * keys, the type capitalized, and the price Free exactly when the price
   * field, defaulting to 0, equals 0.
   */
  predicate NormalisedFrom(fields: map<string, Value>, a: ActivityFields) {
    && Defaulted(fields, "activity", Str(""), a.text)
    && ("type" !in fields ==> a.category == "")
    && ("type" in fields ==> fields["type"].Str? && IsCapitalizationOf(a.category, fields["type"].s))
    && Defaulted(fields, "participants", Num(1), a.participants)
    && (a.price == Free <==> "price" !in fields || EqualsZero(fields["price"]))
  }

  /** True when `.capitalize()` can be applied to the type the payload carries. */
  predicate TypeIsString(fields: map<string, Value>) {
    "type" in fields ==> fields["type"].Str?
  }

  /**
   * Builds the shared fields from a parsed body. `data.get` raises
   * AttributeError when the body is not a JSON object, and `.capitalize()`
   * raises it when the type is present but not a string.
   */
  function NormaliseActivity(data: Value): (r: Result<ActivityFields>)
    ensures r.Raise? <==> !data.Obj? || !TypeIsString(data.fields)
    ensures r.Raise? ==> r.error == AttributeError
    ensures r.Ok? ==> NormalisedFrom(data.fields, r.value)
  {
    match data
    case Obj(fields) =>
      var kind := Get(fields, "type", Str(""));
      if !kind.Str? then Raise(AttributeError)
      else
        Ok(ActivityFields(
          Get(fields, "activity", Str("")),
          Capitalize(kind.s),
          Get(fields, "participants", Num(1)),
          if EqualsZero(Get(fields, "price", Num(0))) then Free else Paid))
    case _ => Raise(AttributeError)
  }

  /** NormalisedFrom leaves no choice: it is an independent definition of NormaliseActivity. */
  lemma {:induction false} NormalisedFromUnique(fields: map<string, Value>, a: ActivityFields)
    requires NormalisedFrom(fields, a)
    ensures NormaliseActivity(Obj(fields)) == Ok(a)
  {
    var b := NormaliseActivity(Obj(fields)).value;
    if "type" in fields {
      CapitalizationUnique(a.category, fields["type"].s);
      CapitalizationUnique(b.category, fields["type"].s);
    }
  }

  /** A missing price, 0 and false are Free. */
  lemma FreePrices(untyped: map<string, Value>)
    requires "type" !in untyped
    ensures "price" !in untyped ==> NormaliseActivity(Obj(untyped)).value.price == Free
    ensures NormaliseActivity(Obj(untyped + map["price" := Num(0)])).value.price == Free
    ensures NormaliseActivity(Obj(untyped + map["price" := Bool(false)])).value.price == Free
  {
    PriceOf(untyped, Num(0));
    PriceOf(untyped, Bool(false));
  }

  /** Null, a string (even "0") and any non-zero number are Paid. */
  lemma PaidPrices(untyped: map<string, Value>, n: int)
    requires "type" !in untyped
    requires n != 0
    ensures NormaliseActivity(Obj(untyped + map["price" := Null])).value.price == Paid
    ensures NormaliseActivity(Obj(untyped + map["price" := Str("0")])).value.price == Paid
    ensures NormaliseActivity(Obj(untyped + map["price" := Num(n)])).value.price == Paid
  {
    PriceOf(untyped, Null);
    PriceOf(untyped, Str("0"));
    PriceOf(untyped, Num(n));
  }

  /** Without a type, the price field alone decides Free or Paid. */
  lemma PriceOf(untyped: map<string, Value>, price: Value)
    requires "type" !in untyped
    ensures NormaliseActivity(Obj(untyped + map["price" := price])).value.price == if EqualsZero(price) then Free else Paid
  {
    var m := untyped + map["price" := price];
    assert "type" !in m && m["price"] == price;
  }

  /** A payload of the random-activity service: the type is capitalized, price 0 is Free, accessibility defaults to 0. */
  lemma JugglingNormalised(fields: map<string, Value>)
    requires fields == map["activity" := Str("Learn juggling"), "type" := Str("recreational"),
                           "participants" := Num(1), "price" := Num(0)]
    ensures NormaliseActivity(Obj(fields)) == Ok(ActivityFields(Str("Learn juggling"), "Recreational", Num(1), Free))
    ensures Get(fields, "accessibility", Num(0)) == Num(0)
  {
    assert Capitalize("recreational") == "Recreational";
    assert Get(fields, "type", Str("")) == Str("recreational");
    assert Get(fields, "activity", Str("")) == Str("Learn juggling");
    assert Get(fields, "participants", Num(1)) == Num(1);
    assert Get(fields, "price", Num(0)) == Num(0);
  }
}
