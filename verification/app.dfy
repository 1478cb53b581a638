/** The prediction endpoint of app.py: the request checks of `api_predict`,
    the decoding of the five classifier heads with `argmax_and_name`, and
    the hand-off to the rule engine. The image decoding, the network and
    the Keras model are outside the model; the model's output `preds` is a
    parameter. */
module App {
  import opened Wrappers
  import Text
  import RuleEngine

  /** The non-empty entries of `s`, in order. */
  function NonBlank(s: seq<string>): (r: seq<string>)
    ensures |r| <= |s|
    ensures forall x :: x in r <==> x != [] && x in s
  {
    if |s| == 0 then []
    else NonBlank(s[..|s| - 1]) + (if s[|s| - 1] != [] then [s[|s| - 1]] else [])
  }

  /** `LABELS`: the lines of labels.txt, stripped, blank ones dropped, in
      order. */
  function LoadLabels(lines: seq<string>): (labels: seq<string>)
    ensures |labels| <= |lines|
    ensures forall x :: x in labels <==> x != [] && exists i :: 0 <= i < |lines| && Text.Strip(lines[i]) == x
    ensures forall j :: 0 <= j < |labels| ==> labels[j] != [] && Text.Strip(labels[j]) == labels[j]
  {
    var stripped := seq(|lines|, i requires 0 <= i < |lines| => Text.Strip(lines[i]));
    var labels := NonBlank(stripped);
    assert forall x :: x in stripped <==> exists i :: 0 <= i < |lines| && Text.Strip(lines[i]) == x by {
      forall x ensures x in stripped <==> exists i :: 0 <= i < |lines| && Text.Strip(lines[i]) == x {
        if exists i :: 0 <= i < |lines| && Text.Strip(lines[i]) == x {
          var i :| 0 <= i < |lines| && Text.Strip(lines[i]) == x;
          assert stripped[i] == x;
        }
      }
    }
    assert forall j :: 0 <= j < |labels| ==> labels[j] != [] && Text.Strip(labels[j]) == labels[j] by {
      forall j | 0 <= j < |labels| ensures labels[j] != [] && Text.Strip(labels[j]) == labels[j] {
        assert labels[j] in labels;
        var i :| 0 <= i < |lines| && stripped[i] == labels[j];
        Text.StripIdempotent(lines[i]);
      }
    }
    labels
  }

  // ---------------------------------------------------------------------
  // argmax_and_name

  /** `np.argmax` on a non-empty vector: the first index holding the
      largest value. */
  function FirstArgmax(arr: seq<real>): (i: nat)
    requires |arr| > 0
    ensures i < |arr|
    ensures forall j :: 0 <= j < |arr| ==> arr[j] <= arr[i]
    ensures forall j :: 0 <= j < i ==> arr[j] < arr[i]
  {
    if |arr| == 1 then 0
    else
      var k := FirstArgmax(arr[..|arr| - 1]);
      if arr[|arr| - 1] > arr[k] then |arr| - 1 else k
  }

  /** Why a request ends in an unhandled exception (an HTTP 500): a head
      missing from the model output, a key missing from `ATTR_CFG`, an empty
      score vector (`np.argmax` raises) or a winning index past the end of
      the class names. */
  datatype Fault =
    | MissingHead(head: nat)
    | MissingConfigKey(key: string)
    | EmptyScores(head: nat)
    | NameIndexOutOfRange(head: nat)

  /** `argmax_and_name(arr, names)`: the name at the winning index and its
      score. */
  function ArgmaxAndName(arr: seq<real>, names: seq<string>, head: nat): (r: Result<(string, real), Fault>)
    ensures r.Ok? <==> |arr| > 0 && FirstArgmax(arr) < |names|
    ensures r.Ok? ==> r.value == (names[FirstArgmax(arr)], arr[FirstArgmax(arr)])
    ensures r.Ok? ==> forall j :: 0 <= j < |arr| ==> arr[j] <= r.value.1
  {
    if |arr| == 0 then Err(EmptyScores(head))
    else
      var i := FirstArgmax(arr);
      if i >= |names| then Err(NameIndexOutOfRange(head)) else Ok((names[i], arr[i]))
  }

  // ---------------------------------------------------------------------
  // Decoding the model output

  const LineTypeKey := "line_type"

  /** The attribute each output head predicts, in the order of the model's
      outputs. */
  const HeadKeys: seq<string> := [LineTypeKey, RuleEngine.LengthKey, RuleEngine.SlopeKey,
                                  RuleEngine.CurvKey, RuleEngine.BreaksKey]

  /** Each head writes its own key of the `pred` dict. */
  lemma HeadKeysDistinct()
    ensures forall i, j :: 0 <= i < j < |HeadKeys| ==> HeadKeys[i] != HeadKeys[j]
  {
    assert HeadKeys[0][0] == 'l' && HeadKeys[0][1] == 'i';
    assert HeadKeys[1][0] == 'l' && HeadKeys[1][1] == 'e';
    assert HeadKeys[2][0] == 's' && HeadKeys[3][0] == 'c' && HeadKeys[4][0] == 'b';
  }

  /** The class names of each head. */
  type AttrConfig = map<string, seq<string>>

  /** `preds`: per head, a batch of score vectors; the service sends a
      batch of one. */
  type Predictions = seq<seq<seq<real>>>

  /** `argmax_and_name(preds[k][0], ATTR_CFG[key])[0]`, evaluated in
      Python's order: the index into `preds`, then the config lookup, then
      the argmax. */
  function DecodeHead(preds: Predictions, cfg: AttrConfig, k: nat): (r: Result<string, Fault>)
    requires k < |HeadKeys|
    ensures r.Ok? <==> k < |preds| && |preds[k]| > 0 && HeadKeys[k] in cfg
                       && ArgmaxAndName(preds[k][0], cfg[HeadKeys[k]], k).Ok?
    ensures r.Ok? ==> r.value in cfg[HeadKeys[k]]
  {
    if k >= |preds| || |preds[k]| == 0 then Err(MissingHead(k))
    else if HeadKeys[k] !in cfg then Err(MissingConfigKey(HeadKeys[k]))
    else
      match ArgmaxAndName(preds[k][0], cfg[HeadKeys[k]], k)
      case Err(e) => Err(e)
      case Ok(p) => Ok(p.0)
  }

  /** The `pred` dict after its first `n` entries, or the exception of the
      first head that raises. */
  function DecodeHeads(preds: Predictions, cfg: AttrConfig, n: nat): (r: Result<RuleEngine.Attrs, Fault>)
    requires n <= |HeadKeys|
    ensures r.Ok? ==> forall k :: 0 <= k < n ==> HeadKeys[k] in r.value && DecodeHead(preds, cfg, k) == Ok(r.value[HeadKeys[k]])
    ensures r.Ok? <==> forall k :: 0 <= k < n ==> DecodeHead(preds, cfg, k).Ok?
    ensures r.Err? ==> exists k :: 0 <= k < n && DecodeHead(preds, cfg, k) == Err(r.error)
                                  && forall j :: 0 <= j < k ==> DecodeHead(preds, cfg, j).Ok?
  {
    if n == 0 then Ok(map[])
    else
      match DecodeHeads(preds, cfg, n - 1)
      case Err(e) => Err(e)
      case Ok(m) =>
        match DecodeHead(preds, cfg, n - 1)
        case Err(e) => Err(e)
        case Ok(name) =>
          HeadKeysDistinct();
          Ok(m[HeadKeys[n - 1] := name])
  }

  /** The `pred` dict has exactly one entry per decoded head. */
  lemma {:induction false} DecodeHeadsKeys(preds: Predictions, cfg: AttrConfig, n: nat)
    requires n <= |HeadKeys|
    ensures DecodeHeads(preds, cfg, n).Ok? ==>
              DecodeHeads(preds, cfg, n).value.Keys == set k | 0 <= k < n :: HeadKeys[k]
  {
    if n > 0 {
      DecodeHeadsKeys(preds, cfg, n - 1);
    }
  }

  /** The five attributes predicted for an image. */
  function Decode(preds: Predictions, cfg: AttrConfig): Result<RuleEngine.Attrs, Fault> {
    DecodeHeads(preds, cfg, |HeadKeys|)
  }

  // ---------------------------------------------------------------------
  // api_predict

  /** The parts of the multipart request the endpoint reads: whether a
      `file` was uploaded, and the `line_type` form field if sent. */
  datatype Request = Request(hasFile: bool, lineType: Option<string>)

  /** A JSON reply: a 400 with an error message, or the prediction. */
  datatype Response =
    | BadRequest(message: string)
    | Predicted(attributes: RuleEngine.Attrs, lineTypeInput: string, interpretation: seq<string>)

  const MissingFieldsMessage := "file và line_type (life|heart|head|fate) là bắt buộc"
  const InvalidLineTypeMessage := "line_type không hợp lệ"

  /** `api_predict` for a request, the labels, the attribute config and the
      model output for the uploaded image. */
  function ApiPredict(req: Request, labels: seq<string>, cfg: AttrConfig, preds: Predictions): (r: Result<Response, Fault>)
    ensures (!req.hasFile || req.lineType.None?) ==> r == Ok(BadRequest(MissingFieldsMessage))
    ensures r.Ok? && r.value.Predicted? ==>
              req.hasFile && req.lineType.Some?
              && r.value.lineTypeInput == Text.Normalize(req.lineType.value)
              && r.value.lineTypeInput in labels
              && r.value.interpretation == RuleEngine.Interpret(r.value.lineTypeInput, r.value.attributes)
  {
    if !req.hasFile || req.lineType.None? then Ok(BadRequest(MissingFieldsMessage))
    else
      var lineType := Text.Normalize(req.lineType.value);
      if lineType !in labels then Ok(BadRequest(InvalidLineTypeMessage))
      else
        match Decode(preds, cfg)
        case Err(e) => Err(e)
        case Ok(attrs) => Ok(Predicted(attrs, lineType, RuleEngine.Interpret(lineType, attrs)))
  }
}
