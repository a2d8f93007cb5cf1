/**
  The names of a board's six coloured labels. Each colour's setter writes
  to its own sub-resource: the label-names endpoint extended by the colour.
*/
module Labels {
  import opened Protocol
  import Endpoints

  datatype LabelColor = Red | Orange | Yellow | Green | Blue | Purple

  /** The order in which the labels are enumerated. */
  const Palette: seq<LabelColor> := [Red, Orange, Yellow, Green, Blue, Purple]

  /** The snapshot (IJsonLabelNames): one name per colour. */
  datatype LabelNamesJson = LabelNamesJson(red: NStr, orange: NStr, yellow: NStr, green: NStr, blue: NStr, purple: NStr)

  datatype Label = Label(color: LabelColor, name: NStr)

  /** The snapshot field that holds the name of colour `c`. */
  function Field(j: LabelNamesJson, c: LabelColor): NStr
  {
    match c
    case Red => j.red
    case Orange => j.orange
    case Yellow => j.yellow
    case Green => j.green
    case Blue => j.blue
    case Purple => j.purple
  }

  /** The snapshot with the name of colour `c` replaced by `v`: that field
      reads `v` and the five others are as they were. */
  function WithField(j: LabelNamesJson, c: LabelColor, v: NStr): (r: LabelNamesJson)
    ensures Field(r, c) == v
    ensures forall d :: d != c ==> Field(r, d) == Field(j, d)
  {
    match c
    case Red => j.(red := v)
    case Orange => j.(orange := v)
    case Yellow => j.(yellow := v)
    case Green => j.(green := v)
    case Blue => j.(blue := v)
    case Purple => j.(purple := v)
  }

  /** The lower-case segment each colour's setter appends to the endpoint. */
  function Segment(c: LabelColor): string
  {
    match c
    case Red => "red"
    case Orange => "orange"
    case Yellow => "yellow"
    case Green => "green"
    case Blue => "blue"
    case Purple => "purple"
  }

  /** The path a colour's PUT goes to. */
  function ColorPath(generated: seq<NStr>, c: LabelColor): string
  {
    Endpoints.Join(generated + [Some(Segment(c))])
  }

  /** The colour setter: write access first; no-op without a snapshot or for
      an equal value; otherwise the value (null stored as "") and one PUT of
      the single parameter "value" to the colour's sub-resource. */
  function NameEffect(writable: bool, generated: seq<NStr>, json: Option<LabelNamesJson>, c: LabelColor, value: NStr): (e: Effect<LabelNamesJson>)
    ensures !writable ==> e == Effect(Failed(ReadOnly), json, [])
    ensures writable && (json.None? || Field(json.value, c) == value) ==> e == Effect(Done, json, [])
    ensures writable && json.Some? && Field(json.value, c) != value ==>
      && e.outcome == Done
      && e.snapshot == Some(WithField(json.value, c, Some(Coalesce(value))))
      && e.requests == [Request(Verb.Put, At(ColorPath(generated, c)), map["value" := Coalesce(value)])]
  {
    var d := Decide(writable, None, json.Some?, json.Some? && Field(json.value, c) == value, None);
    if d.Write? then
      var stored := Coalesce(value);
      Effect(Done, Some(WithField(json.value, c, Some(stored))),
             [Request(Verb.Put, At(ColorPath(generated, c)), map["value" := stored])])
    else Settled(d, json)
  }

  /** Setting one colour leaves the other five names as they were. */
  lemma NameEffectFrame(writable: bool, generated: seq<NStr>, json: Option<LabelNamesJson>, c: LabelColor, value: NStr, d: LabelColor)
    requires json.Some? && d != c
    ensures NameEffect(writable, generated, json, c, value).snapshot.Some?
    ensures Field(NameEffect(writable, generated, json, c, value).snapshot.value, d) == Field(json.value, d)
  {
  }

  /** A colour's path is the label-names path, a slash and the colour. */
  lemma ColorPathExtends(generated: seq<NStr>, c: LabelColor)
    requires generated != []
    ensures ColorPath(generated, c) == Endpoints.Join(generated) + "/" + Segment(c)
  {
    Endpoints.JoinAppend(generated, Some(Segment(c)));
  }

  class LabelNames {
    /** The segments the endpoint generator yields for these label names. */
    const generated: seq<NStr>
    /** Whether Validator.Writable succeeds. */
    const writable: bool

    var json: Option<LabelNamesJson>
    var params: map<string, string>
    var log: seq<Request>

    ghost predicate Valid()
      reads this
    {
      params == map[]
    }

    constructor (generated: seq<NStr>, writable: bool, json: Option<LabelNamesJson>)
      ensures Valid()
      ensures this.generated == generated && this.writable == writable
      ensures this.json == json && log == []
    {
      this.generated := generated;
      this.writable := writable;
      this.json := json;
      params := map[];
      log := [];
    }

    /** The getter of colour `c`: null without a snapshot. */
    function Name(c: LabelColor): (r: NStr)
      reads this
      ensures json.None? ==> r.None?
      ensures json.Some? ==> r == Field(json.value, c)
    {
      if json.None? then None else Field(json.value, c)
    }

    /** GetEnumerator: six labels, one per colour in palette order, each
        named by its colour's current field. */
    function Labels(): (r: seq<Label>)
      reads this
      ensures |r| == |Palette| == 6
      ensures forall i :: 0 <= i < |r| ==> r[i].color == Palette[i] && r[i].name == Name(Palette[i])
    {
      [ Label(Red, Name(Red)), Label(Orange, Name(Orange)), Label(Yellow, Name(Yellow)),
        Label(Green, Name(Green)), Label(Blue, Name(Blue)), Label(Purple, Name(Purple)) ]
    }

    twostate predicate Applied(e: Effect<LabelNamesJson>, outcome: Outcome)
      reads this
    {
      outcome == e.outcome && json == e.snapshot && log == old(log) + e.requests && params == map[]
    }

    /** The setters Red, Orange, Yellow, Green, Blue and Purple. */
    method SetName(c: LabelColor, value: NStr) returns (outcome: Outcome)
      requires Valid()
      modifies this
      ensures Valid()
      ensures Applied(NameEffect(writable, generated, old(json), c, value), outcome)
    {
      if !writable { return Failed(ReadOnly); }
      if json.None? { return Done; }
      if Field(json.value, c) == value { return Done; }
      var stored := Coalesce(value);
      json := Some(WithField(json.value, c, Some(stored)));
      params := params["value" := stored];
      Put(Segment(c));
      return Done;
    }

    /** Sends the accumulated parameters in one PUT to the endpoint
        extended by `extension`, then clears them. */
    method Put(extension: string)
      modifies this`log, this`params
      ensures log == old(log) + [Request(Verb.Put, At(Endpoints.Join(generated + [Some(extension)])), old(params))]
      ensures params == map[]
    {
      var endpoint := new Endpoints.Endpoint.FromSequence(generated);
      endpoint.Append(Some(extension));
      log := log + [Request(Verb.Put, At(endpoint.ToString()), params)];
      params := map[];
    }

    /** Fetches the snapshot; a null fetch keeps the old one and reports
        false. */
    method Refresh(fetched: Option<LabelNamesJson>) returns (found: bool)
      modifies this`json, this`log
      ensures log == old(log) + [Request(Verb.Get, At(Endpoints.Join(generated)), map[])]
      ensures found == fetched.Some?
      ensures json == if fetched.Some? then fetched else old(json)
    {
      log := log + [Request(Verb.Get, At(Endpoints.Join(generated)), map[])];
      if fetched.None? { return false; }
      ApplyJson(fetched);
      return true;
    }

    /** Replaces the whole snapshot, with a null one if given null. */
    method ApplyJson(obj: Option<LabelNamesJson>)
      modifies this`json
      ensures json == obj
    {
      json := obj;
    }
  }
}
