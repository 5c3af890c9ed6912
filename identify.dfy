/** The `POST /identify` handler of the backend (backend/server.js): it
    rejects a request without an image, asks the image labeller for label
    descriptions and shapes them into `{ name, description }`.

    The labeller (decoding the base64 payload and calling the vision
    service) is outside the model: its outcome is the `vision` parameter. */
module Identify {
  import opened Text

  /** A JSON value as the body parser delivers it. */
  datatype JsonValue =
    | JNull
    | JBool(b: bool)
    | JNumber(n: real)
    | JString(s: string)
    | JArray(items: seq<JsonValue>)
    | JObject(fields: map<string, JsonValue>)

  /** The `image` field of the request body: absent (undefined) or some JSON value. */
  datatype ImageField = Missing | Given(value: JsonValue)

  /** What the labeller produced: the label descriptions in annotation order,
      or a thrown error (bad payload, service failure, missing annotations). */
  datatype VisionOutcome = Labelled(descriptions: seq<string>) | Failed

  datatype ResponseBody =
    | ErrorBody(error: string)
    | Identified(name: string, description: string)

  datatype Response = Response(status: int, body: ResponseBody)

  const NoImageMessage := "No image provided"
  const FailureMessage := "Identification failed. Try later."

  /** JavaScript falsiness of the field: undefined, null, false, 0 and "". */
  predicate Falsy(image: ImageField)
  {
    match image
    case Missing => true
    case Given(v) =>
      match v
      case JNull => true
      case JBool(b) => !b
      case JNumber(n) => n == 0.0
      case JString(s) => s == ""
      case JArray(_) => false
      case JObject(_) => false
  }

  /** `labels[0] || "Unknown"`: the first label when there is one and it is
      not empty, otherwise "Unknown"; never empty. */
  function LabelName(labels: seq<string>): (r: string)
    ensures r != ""
    ensures |labels| > 0 && labels[0] != "" ==> r == labels[0]
    ensures |labels| == 0 || labels[0] == "" ==> r == "Unknown"
  {
    if |labels| > 0 && labels[0] != "" then labels[0] else "Unknown"
  }

  /** `labels.join(", ")`. */
  function LabelDescription(labels: seq<string>): string
  {
    Join(labels, ", ")
  }

  /** The handler: 400 for a falsy image (the labeller is not consulted), 500
      with a fixed message when labelling throws, otherwise 200 with exactly
      a name and a description built from the labels. */
  function HandleIdentify(image: ImageField, vision: VisionOutcome): (r: Response)
    ensures r.status == 400 <==> Falsy(image)
    ensures r.status == 400 ==> r.body == ErrorBody(NoImageMessage)
    ensures r.status == 500 <==> !Falsy(image) && vision.Failed?
    ensures r.status == 500 ==> r.body == ErrorBody(FailureMessage)
    ensures r.status == 200 <==> !Falsy(image) && vision.Labelled?
    ensures r.status == 200 ==>
      r.body == Identified(LabelName(vision.descriptions), LabelDescription(vision.descriptions))
  {
    if Falsy(image) then Response(400, ErrorBody(NoImageMessage))
    else
      match vision
      case Failed => Response(500, ErrorBody(FailureMessage))
      case Labelled(labels) => Response(200, Identified(LabelName(labels), LabelDescription(labels)))
  }

  // ---------------------------------------------------------------------
  // Properties
  // ---------------------------------------------------------------------

  /** A rejected request does not depend on the labeller at all. */
  lemma RejectionIgnoresLabeller(image: ImageField, v1: VisionOutcome, v2: VisionOutcome)
    requires Falsy(image)
    ensures HandleIdentify(image, v1) == HandleIdentify(image, v2)
    ensures HandleIdentify(image, v1) == Response(400, ErrorBody(NoImageMessage))
  {
  }

  /** An empty string, zero, false and null are rejected just like a missing field. */
  lemma FalsyImages(vision: VisionOutcome)
    ensures HandleIdentify(Given(JString("")), vision).status == 400
    ensures HandleIdentify(Given(JNumber(0.0)), vision).status == 400
    ensures HandleIdentify(Given(JBool(false)), vision).status == 400
    ensures HandleIdentify(Given(JNull), vision).status == 400
    ensures HandleIdentify(Missing, vision).status == 400
    ensures HandleIdentify(Given(JString("x")), vision).status != 400
  {
  }

  /** The description is empty exactly when there are no labels or only one,
      empty, label. */
  lemma DescriptionEmpty(labels: seq<string>)
    ensures LabelDescription(labels) == "" <==> labels == [] || labels == [""]
  {
    if |labels| > 0 {
      JoinLength(labels, ", ");
      if |labels| == 1 {
        assert TotalLength(labels) == |labels[0]|;
      }
    }
  }

  /** A non-empty first label is both the name and the start of the description. */
  lemma NameStartsDescription(labels: seq<string>)
    requires |labels| > 0 && labels[0] != ""
    ensures LabelName(labels) == labels[0]
    ensures |labels[0]| <= |LabelDescription(labels)|
    ensures LabelDescription(labels)[..|labels[0]|] == LabelName(labels)
  {
    JoinStartsWithFirst(labels, ", ");
  }

  /** When no label holds a comma, the description splits at its commas into
      the first label followed by each other label behind a space. */
  lemma DescriptionLists(labels: seq<string>)
    requires |labels| > 0
    requires forall k :: 0 <= k < |labels| ==> ',' !in labels[k]
    ensures Split(LabelDescription(labels), ',') ==
      [labels[0]] + seq(|labels| - 1, k requires 0 <= k < |labels| - 1 => " " + labels[k + 1])
  {
    var spaced := [labels[0]] + seq(|labels| - 1, k requires 0 <= k < |labels| - 1 => " " + labels[k + 1]);
    JoinSpaced(labels);
    assert forall k :: 0 <= k < |spaced| ==> ',' !in spaced[k] by {
      forall k | 0 <= k < |spaced| ensures ',' !in spaced[k] {
        if k > 0 { assert spaced[k] == " " + labels[k]; }
      }
    }
    SplitJoin(spaced, ',');
  }

  /** Joining with ", " is joining with "," after putting a space before every label but the first. */
  lemma {:induction false} JoinSpaced(labels: seq<string>)
    requires |labels| > 0
    ensures Join(labels, ", ") ==
      Join([labels[0]] + seq(|labels| - 1, k requires 0 <= k < |labels| - 1 => " " + labels[k + 1]), ",")
    decreases |labels|
  {
    var spaced := [labels[0]] + seq(|labels| - 1, k requires 0 <= k < |labels| - 1 => " " + labels[k + 1]);
    if |labels| > 1 {
      var rest := labels[1..];
      JoinSpaced(rest);
      var restSpaced := [rest[0]] + seq(|rest| - 1, k requires 0 <= k < |rest| - 1 => " " + rest[k + 1]);
      assert spaced[1..] == [" " + rest[0]] + restSpaced[1..];
      SpaceFirst(rest[0], restSpaced[1..]);
      assert [rest[0]] + restSpaced[1..] == restSpaced;
      assert Join(spaced[1..], ",") == " " + Join(restSpaced, ",");
    }
  }

  /** Putting a space before the first part puts a space before the join. */
  lemma SpaceFirst(first: string, rest: seq<string>)
    ensures Join([" " + first] + rest, ",") == " " + Join([first] + rest, ",")
  {
    if |rest| == 0 {
      assert [" " + first] + rest == [" " + first];
      assert [first] + rest == [first];
    } else {
      var tail := Join(rest, ",");
      assert Join([" " + first] + rest, ",") == (" " + first) + "," + tail by {
        JoinCons([" " + first] + rest, ",");
        assert ([" " + first] + rest)[1..] == rest;
      }
      assert Join([first] + rest, ",") == first + "," + tail by {
        JoinCons([first] + rest, ",");
        assert ([first] + rest)[1..] == rest;
      }
      assert (" " + first) + "," + tail == " " + (first + "," + tail);
    }
  }
}
