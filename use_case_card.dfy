/** The form state of src/components/UseCaseCard.jsx: the initial values of
    the inputs, the change handler, and the request data `handleTest` builds,
    in which number inputs are converted with `Number()`. Objects are
    sequences of key/value pairs in insertion order. */
module UseCaseCard {
  import opened JsValue
  import opened JsText

  const NumberType := "number"

  /** One entry of the `inputs` prop; `kind` is its `type`. */
  datatype Input = Input(id: string, kind: string, defaultValue: Value)

  /** The ids of the inputs, in order. */
  function Ids(inputs: seq<Input>): (ids: seq<string>)
    ensures |ids| == |inputs| && forall i :: 0 <= i < |inputs| ==> ids[i] == inputs[i].id
  {
    seq(|inputs|, i requires 0 <= i < |inputs| => inputs[i].id)
  }

  // ---------------------------------------------------------------------
  // Initial values

  /** `inputs.reduce((acc, input) => ({ ...acc, [input.id]: input.defaultValue || '' }), {})`:
      one key per distinct id. */
  function InitialValues(inputs: seq<Input>): (r: seq<(string, Value)>)
    ensures forall k :: k in Keys(r) <==> k in Ids(inputs)
    decreases |inputs|
  {
    if |inputs| == 0 then []
    else
      var n := |inputs| - 1;
      var acc := InitialValues(inputs[..n]);
      var r := Put(acc, inputs[n].id, Or(inputs[n].defaultValue, Str("")));
      IdsSnoc(inputs);
      assert forall k :: k in Keys(r) <==> k in Keys(acc) || k == inputs[n].id;
      r
  }

  /** The ids of a non-empty list are those of all but its last input, and
      the last one's. */
  lemma IdsSnoc(inputs: seq<Input>)
    requires |inputs| > 0
    ensures forall k :: k in Ids(inputs) <==> k in Ids(inputs[..|inputs| - 1]) || k == inputs[|inputs| - 1].id
  {
    assert Ids(inputs) == Ids(inputs[..|inputs| - 1]) + [inputs[|inputs| - 1].id];
  }

  /** The last input carrying id `k`, if any. */
  function LastWithId(inputs: seq<Input>, k: string): (r: Option<nat>)
    ensures r.None? <==> k !in Ids(inputs)
    ensures r.Some? ==>
              r.value < |inputs| && inputs[r.value].id == k &&
              forall j :: r.value < j < |inputs| ==> inputs[j].id != k
    decreases |inputs|
  {
    if |inputs| == 0 then None
    else
      var n := |inputs| - 1;
      assert Ids(inputs) == Ids(inputs[..n]) + [inputs[n].id];
      if inputs[n].id == k then Some(n) else LastWithId(inputs[..n], k)
  }

  /** Each id starts with the default of the last input carrying it, or ""
      when that default is falsy; other keys are absent. */
  lemma {:induction false} InitialLookup(inputs: seq<Input>, k: string)
    ensures var r := Lookup(InitialValues(inputs), k);
            match LastWithId(inputs, k)
            case None => r.None?
            case Some(j) => r == Some(Or(inputs[j].defaultValue, Str("")))
    decreases |inputs|
  {
    if |inputs| > 0 {
      var n := |inputs| - 1;
      var acc := InitialValues(inputs[..n]);
      PutLookup(acc, inputs[n].id, Or(inputs[n].defaultValue, Str("")), k);
      if inputs[n].id != k {
        InitialLookup(inputs[..n], k);
        match LastWithId(inputs[..n], k)
        case None =>
        case Some(j) => assert inputs[..n][j] == inputs[j];
      }
    }
  }

  /** With distinct ids, every input's id maps to its own default, or "" when
      the default is falsy. */
  lemma InitialDistinct(inputs: seq<Input>, i: nat)
    requires i < |inputs| && Distinct(Ids(inputs))
    ensures Lookup(InitialValues(inputs), inputs[i].id) == Some(Or(inputs[i].defaultValue, Str("")))
  {
    InitialLookup(inputs, inputs[i].id);
    var j := LastWithId(inputs, inputs[i].id).value;
    assert Ids(inputs)[i] == Ids(inputs)[j];
  }

  // ---------------------------------------------------------------------
  // Changes

  /** `handleInputChange(id, value)`: the field's text becomes `value`. */
  function InputChanged(values: seq<(string, Value)>, id: string, value: string): (r: seq<(string, Value)>)
    ensures Keys(r) == if id in Keys(values) then Keys(values) else Keys(values) + [id]
  {
    Put(values, id, Str(value))
  }

  /** After a change, the field holds the new text and every other field
      is as before. */
  lemma InputChangedLookup(values: seq<(string, Value)>, id: string, value: string, k: string)
    ensures Lookup(InputChanged(values, id, value), id) == Some(Str(value))
    ensures k != id ==> Lookup(InputChanged(values, id, value), k) == Lookup(values, k)
  {
    PutLookup(values, id, Str(value), k);
  }

  // ---------------------------------------------------------------------
  // The request data

  /** `data[input.id]` */
  function Field(data: seq<(string, Value)>, k: string): Value {
    Prop(Obj(data), k)
  }

  /** One step of the `forEach`: a number input with a truthy value has
      that value replaced by `Number(value)`. */
  function ConvertOne(data: seq<(string, Value)>, input: Input): (r: seq<(string, Value)>)
    ensures Keys(r) == Keys(data)
  {
    if input.kind == NumberType && Truthy(Field(data, input.id)) then
      assert Lookup(data, input.id).Some?;
      Put(data, input.id, ToNumber(Field(data, input.id)))
    else data
  }

  /** The data after the loop has visited `inputs` in order, starting from
      the copy of `values`. Converting never adds or drops a key: only
      truthy, hence present, fields are overwritten. */
  function TestData(inputs: seq<Input>, values: seq<(string, Value)>): (r: seq<(string, Value)>)
    ensures Keys(r) == Keys(values)
    decreases |inputs|
  {
    if |inputs| == 0 then values
    else ConvertOne(TestData(inputs[..|inputs| - 1], values), inputs[|inputs| - 1])
  }

  predicate HasNumberInput(inputs: seq<Input>, k: string) {
    exists i :: 0 <= i < |inputs| && inputs[i].id == k && inputs[i].kind == NumberType
  }

  /** Field by field: a field some number input names, holding a truthy
      value, is that value converted to a number; every other field is
      passed through unchanged. Converting twice is harmless, since a
      converted value is a number or NaN. */
  lemma {:induction false} TestLookup(inputs: seq<Input>, values: seq<(string, Value)>, k: string)
    ensures Lookup(TestData(inputs, values), k) ==
            if HasNumberInput(inputs, k) && Truthy(Field(values, k)) then Some(ToNumber(Field(values, k)))
            else Lookup(values, k)
    decreases |inputs|
  {
    if |inputs| > 0 {
      var n := |inputs| - 1;
      var d := TestData(inputs[..n], values);
      TestLookup(inputs[..n], values, k);
      ConvertOneLookup(d, inputs[n], k);
      HasNumberInputSnoc(inputs, k);
      FieldOfLookup(d, k);
      FieldOfLookup(values, k);
    }
  }

  /** One step changes at most the field its input names. */
  lemma ConvertOneLookup(d: seq<(string, Value)>, input: Input, k: string)
    ensures Lookup(ConvertOne(d, input), k) ==
            if input.id == k && input.kind == NumberType && Truthy(Field(d, k)) then Some(ToNumber(Field(d, k)))
            else Lookup(d, k)
  {
    PutLookup(d, input.id, ToNumber(Field(d, input.id)), k);
  }

  /** A field reads as its stored value, or undefined when absent. */
  lemma FieldOfLookup(d: seq<(string, Value)>, k: string)
    ensures Lookup(d, k).None? ==> Field(d, k) == Undefined
    ensures Lookup(d, k).Some? ==> Field(d, k) == Lookup(d, k).value
  {
  }

  lemma HasNumberInputSnoc(inputs: seq<Input>, k: string)
    requires |inputs| > 0
    ensures var n := |inputs| - 1;
            HasNumberInput(inputs, k) <==>
            HasNumberInput(inputs[..n], k) || (inputs[n].id == k && inputs[n].kind == NumberType)
  {
    var n := |inputs| - 1;
    if HasNumberInput(inputs, k) {
      var i :| 0 <= i < |inputs| && inputs[i].id == k && inputs[i].kind == NumberType;
      if i < n {
        assert inputs[..n][i] == inputs[i];
      }
    }
    if HasNumberInput(inputs[..n], k) {
      var i :| 0 <= i < n && inputs[..n][i].id == k && inputs[..n][i].kind == NumberType;
      assert inputs[i] == inputs[..n][i];
    }
  }

  // ---------------------------------------------------------------------
  // The component

  class UseCaseCardState {
    const inputs: seq<Input>
    var inputValues: seq<(string, Value)>

    /** The first render. */
    constructor(inputs: seq<Input>)
      ensures this.inputs == inputs && inputValues == InitialValues(inputs)
    {
      this.inputs := inputs;
      inputValues := InitialValues(inputs);
    }

    method HandleInputChange(id: string, value: string)
      modifies this
      ensures inputValues == InputChanged(old(inputValues), id, value)
    {
      inputValues := InputChanged(inputValues, id, value);
    }

    /** `handleTest()`: copies the values and converts number inputs in
        place in the copy, which is handed to `onTest`. The component's own
        values are left as they were. */
    method HandleTest() returns (data: seq<(string, Value)>)
      ensures data == TestData(inputs, inputValues)
    {
      data := inputValues;
      for i := 0 to |inputs|
        invariant data == TestData(inputs[..i], inputValues)
      {
        var input := inputs[i];
        assert inputs[..i + 1][..i] == inputs[..i];
        if input.kind == NumberType && Truthy(Field(data, input.id)) {
          data := Put(data, input.id, ToNumber(Field(data, input.id)));
        }
      }
      assert inputs[..|inputs|] == inputs;
    }
  }
}
