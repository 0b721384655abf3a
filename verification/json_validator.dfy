/**
  The shape check an "add data points" payload must pass before the persistor
  forwards it to KairosDB.
 */
module JsonValidator {
  import opened Options
  import opened Json

  /** The fields the validator may read. No other field affects its verdict. */
  const InspectedFields: set<string> := {"name", "tags", "timestamp", "value", "datapoints"}

  /** The validator's getters do not throw on `o`. Each field is constrained
      only when the validator reaches the read: `tags` is read only once `name`
      is present, and `value` only once `timestamp` is present. */
  predicate Readable(o: Object) {
    && Conforms(o, "name", KString)
    && (GetString(o, "name").Some? ==>
          && Conforms(o, "tags", KObject)
          && (GetObject(o, "tags").Some? && |GetObject(o, "tags").value| != 0 ==>
                && Conforms(o, "timestamp", KNumber)
                && (GetNumber(o, "timestamp").Some? ==> Conforms(o, "value", KNumber))
                && Conforms(o, "datapoints", KArray)))
  }

  /** The add-data-points shape, stated declaratively: a metric name, at least
      one tag, and either an array of points or a single timestamp with its
      value. The contents of the array are not part of the shape. */
  predicate WellFormed(o: Object) {
    && "name" in o && o["name"].JString?
    && "tags" in o && o["tags"].JObject? && o["tags"].fields != map[]
    && (|| ("datapoints" in o && o["datapoints"].JArray?)
        || ("timestamp" in o && o["timestamp"].JNumber? && "value" in o && o["value"].JNumber?))
  }

  /** `validateDataPoints`: checks in the source's order, returning at the
      first failure; an absent payload is invalid. */
  function ValidateDataPoints(dataPoints: Option<Object>): (valid: bool)
    requires dataPoints.Some? ==> Readable(dataPoints.value)
    ensures valid <==> dataPoints.Some? && WellFormed(dataPoints.value)
  {
    if dataPoints.None? then false
    else
      var o := dataPoints.value;
      if GetString(o, "name").None? then false
      else if GetObject(o, "tags").None? || |GetObject(o, "tags").value| == 0 then false
      else
        var validSingle := GetNumber(o, "timestamp").Some? && GetNumber(o, "value").Some?;
        if GetArray(o, "datapoints").None? && !validSingle then false
        else true
  }

  /** An absent payload is invalid. */
  lemma AbsentPayloadInvalid()
    ensures !ValidateDataPoints(None)
  {
  }

  /** Without a string `name`, no payload is valid, single- or multi-point. */
  lemma MissingNameInvalid(o: Object)
    requires Readable(o)
    requires GetString(o, "name").None?
    ensures !ValidateDataPoints(Some(o))
  {
  }

  /** A missing `tags` object, or one with no entries, makes the payload invalid. */
  lemma MissingOrEmptyTagsInvalid(o: Object)
    requires Readable(o)
    requires GetObject(o, "tags").None? || GetObject(o, "tags").value == map[]
    ensures !ValidateDataPoints(Some(o))
  {
  }

  /** With a name and tags, a timestamp together with a value suffices. */
  lemma SinglePointSuffices(o: Object)
    requires Readable(o)
    requires GetString(o, "name").Some?
    requires GetObject(o, "tags").Some? && GetObject(o, "tags").value != map[]
    requires GetNumber(o, "timestamp").Some? && GetNumber(o, "value").Some?
    ensures ValidateDataPoints(Some(o))
  {
  }

  /** With a name and tags, a `datapoints` array suffices, whatever it holds
      (the empty array included) and without timestamp or value. */
  lemma PointsArraySuffices(o: Object)
    requires Readable(o)
    requires GetString(o, "name").Some?
    requires GetObject(o, "tags").Some? && GetObject(o, "tags").value != map[]
    requires GetArray(o, "datapoints").Some?
    ensures ValidateDataPoints(Some(o))
  {
  }

  /** Without a points array, a missing timestamp or a missing value is fatal. */
  lemma IncompleteSinglePointInvalid(o: Object)
    requires Readable(o)
    requires GetArray(o, "datapoints").None?
    requires GetNumber(o, "timestamp").None? || GetNumber(o, "value").None?
    ensures !ValidateDataPoints(Some(o))
  {
  }

  /** Two readable payloads that agree on the inspected fields get the same
      verdict: every other field is ignored. */
  lemma {:induction false} OnlyInspectedFieldsMatter(o1: Object, o2: Object)
    requires Readable(o1) && Readable(o2)
    requires forall k :: k in InspectedFields ==> Lookup(o1, k) == Lookup(o2, k)
    ensures ValidateDataPoints(Some(o1)) == ValidateDataPoints(Some(o2))
  {
    assert Lookup(o1, "name") == Lookup(o2, "name");
    assert Lookup(o1, "tags") == Lookup(o2, "tags");
    assert Lookup(o1, "timestamp") == Lookup(o2, "timestamp");
    assert Lookup(o1, "value") == Lookup(o2, "value");
    assert Lookup(o1, "datapoints") == Lookup(o2, "datapoints");
  }

  /** Adding, replacing or dropping a field the validator does not inspect
      leaves both readability and the verdict unchanged. */
  lemma UninspectedUpdateIrrelevant(o: Object, key: string, v: Json)
    requires key !in InspectedFields
    requires Readable(o)
    ensures Readable(o[key := v]) && Readable(o - {key})
    ensures ValidateDataPoints(Some(o[key := v])) == ValidateDataPoints(Some(o))
    ensures ValidateDataPoints(Some(o - {key})) == ValidateDataPoints(Some(o))
  {
    var o1 := o[key := v];
    var o2 := o - {key};
    forall k | k in InspectedFields
      ensures Lookup(o1, k) == Lookup(o, k) && Lookup(o2, k) == Lookup(o, k)
    {
    }
    assert Readable(o1) by {
      assert Lookup(o1, "name") == Lookup(o, "name");
      assert Lookup(o1, "tags") == Lookup(o, "tags");
      assert Lookup(o1, "timestamp") == Lookup(o, "timestamp");
      assert Lookup(o1, "value") == Lookup(o, "value");
      assert Lookup(o1, "datapoints") == Lookup(o, "datapoints");
    }
    assert Readable(o2) by {
      assert Lookup(o2, "name") == Lookup(o, "name");
      assert Lookup(o2, "tags") == Lookup(o, "tags");
      assert Lookup(o2, "timestamp") == Lookup(o, "timestamp");
      assert Lookup(o2, "value") == Lookup(o, "value");
      assert Lookup(o2, "datapoints") == Lookup(o, "datapoints");
    }
    OnlyInspectedFieldsMatter(o1, o);
    OnlyInspectedFieldsMatter(o2, o);
  }

}
