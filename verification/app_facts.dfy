/** Properties of the prediction endpoint: what `np.argmax` picks, which
    requests are turned away before the model is consulted, and that the
    reading is built from the line type the user chose. */
module AppFacts {
  import opened Wrappers
  import Text
  import RuleEngine
  import RuleEngineFacts
  import opened App

  /** An index-level definition of `np.argmax`: the first position of a
      largest entry. */
  predicate IsFirstMax(arr: seq<real>, i: int) {
    0 <= i < |arr|
    && (forall j :: 0 <= j < |arr| ==> arr[j] <= arr[i])
    && (forall j :: 0 <= j < i ==> arr[j] < arr[i])
  }

  /** `FirstArgmax` is the one index meeting that definition. */
  lemma FirstArgmaxIsFirstMax(arr: seq<real>, i: int)
    requires |arr| > 0
    ensures IsFirstMax(arr, i) <==> i == FirstArgmax(arr)
  {
  }

  /** On a tie the earlier class wins. */
  lemma ArgmaxTieTakesFirst()
    ensures FirstArgmax([0.5, 0.5, 0.0]) == 0
  {
    FirstArgmaxIsFirstMax([0.5, 0.5, 0.0], 0);
  }

  /** A winning index past the end of the class names raises. */
  lemma ArgmaxPastNames()
    ensures ArgmaxAndName([0.25, 0.75], ["short"], 3) == Err(NameIndexOutOfRange(3))
  {
    FirstArgmaxIsFirstMax([0.25, 0.75], 1);
  }

  /** A decoded `pred` dict has exactly the five keys, each holding one of
      the class names configured for it. */
  lemma DecodedAttributes(preds: Predictions, cfg: AttrConfig)
    requires Decode(preds, cfg).Ok?
    ensures Decode(preds, cfg).value.Keys == set k | 0 <= k < |HeadKeys| :: HeadKeys[k]
    ensures forall k :: 0 <= k < |HeadKeys| ==>
              HeadKeys[k] in cfg && Decode(preds, cfg).value[HeadKeys[k]] in cfg[HeadKeys[k]]
  {
    DecodeHeadsKeys(preds, cfg, |HeadKeys|);
  }

  /** A model with fewer outputs than heads fails at the first missing one
      when the outputs it has decode. */
  lemma TruncatedOutputFails(preds: Predictions, cfg: AttrConfig)
    requires |preds| < |HeadKeys|
    requires forall k :: 0 <= k < |preds| ==> DecodeHead(preds, cfg, k).Ok?
    ensures Decode(preds, cfg) == Err(MissingHead(|preds|))
  {
    var r := Decode(preds, cfg);
    assert DecodeHead(preds, cfg, |preds|).Err?;
    var k :| 0 <= k < |HeadKeys| && DecodeHead(preds, cfg, k) == Err(r.error)
             && forall j :: 0 <= j < k ==> DecodeHead(preds, cfg, j).Ok?;
    assert k == |preds|;
  }

  /** The two 400 messages differ, so a client can tell the cases apart. */
  lemma MessagesDiffer()
    ensures MissingFieldsMessage != InvalidLineTypeMessage
  {
    assert MissingFieldsMessage[|MissingFieldsMessage| - 1] == 'c';
    assert InvalidLineTypeMessage[|InvalidLineTypeMessage| - 1] == 'ệ';
  }

  /** Every outcome of the endpoint, by the request, the labels and what
      decoding the model output gives. */
  lemma ApiPredictOutcomes(req: Request, labels: seq<string>, cfg: AttrConfig, preds: Predictions)
    ensures (ApiPredict(req, labels, cfg, preds) == Ok(BadRequest(MissingFieldsMessage)))
            <==> (!req.hasFile || req.lineType.None?)
    ensures (ApiPredict(req, labels, cfg, preds) == Ok(BadRequest(InvalidLineTypeMessage)))
            <==> (req.hasFile && req.lineType.Some? && Text.Normalize(req.lineType.value) !in labels)
    ensures forall e :: ApiPredict(req, labels, cfg, preds) == Err(e)
              <==> req.hasFile && req.lineType.Some? && Text.Normalize(req.lineType.value) in labels
                   && Decode(preds, cfg) == Err(e)
    ensures forall attrs ::
              Decode(preds, cfg) == Ok(attrs) && req.hasFile && req.lineType.Some?
              && Text.Normalize(req.lineType.value) in labels
              ==>
              var lineType := Text.Normalize(req.lineType.value);
              ApiPredict(req, labels, cfg, preds) == Ok(Predicted(attrs, lineType, RuleEngine.Interpret(lineType, attrs)))
  {
    MessagesDiffer();
  }

  /** Both request checks run before the model: a rejected request is
      rejected whatever the model would have said. */
  lemma RejectionIgnoresModel(req: Request, labels: seq<string>,
                              cfg1: AttrConfig, preds1: Predictions, cfg2: AttrConfig, preds2: Predictions)
    requires ApiPredict(req, labels, cfg1, preds1).Ok? && ApiPredict(req, labels, cfg1, preds1).value.BadRequest?
    ensures ApiPredict(req, labels, cfg2, preds2) == ApiPredict(req, labels, cfg1, preds1)
  {
  }

  /** The line type is trimmed and lower-cased before it is checked, so a
      client that sends the normalized form gets the same reply. */
  lemma LineTypeNormalizedFirst(hasFile: bool, lineType: string, labels: seq<string>, cfg: AttrConfig, preds: Predictions)
    ensures ApiPredict(Request(hasFile, Some(Text.Normalize(lineType))), labels, cfg, preds)
            == ApiPredict(Request(hasFile, Some(lineType)), labels, cfg, preds)
  {
    Text.NormalizeIdempotent(lineType);
  }

  /** The reading comes from the line type the user chose: the model's own
      guess at the line type, stored under "line_type", plays no part. */
  lemma UserLineTypeDrivesInterpretation(req: Request, labels: seq<string>, cfg: AttrConfig,
                                         preds: Predictions, guess: string)
    requires ApiPredict(req, labels, cfg, preds).Ok? && ApiPredict(req, labels, cfg, preds).value.Predicted?
    ensures var p := ApiPredict(req, labels, cfg, preds).value;
            p.interpretation == RuleEngine.Interpret(p.lineTypeInput, p.attributes[LineTypeKey := guess])
  {
    var p := ApiPredict(req, labels, cfg, preds).value;
    HeadKeysDistinct();
    assert HeadKeys[0] == LineTypeKey;
    RuleEngineFacts.InterpretReadsOnlyAttributeKeys(p.lineTypeInput, p.attributes, p.attributes[LineTypeKey := guess]);
  }

  /** A class-name config without a "line_type" entry makes every accepted
      request fail at the first head, once the model has produced it. */
  lemma ConfigWithoutLineTypeFails(hasFile: bool, lineType: string, labels: seq<string>,
                                   cfg: AttrConfig, preds: Predictions)
    requires hasFile && Text.Normalize(lineType) in labels
    requires |preds| > 0 && |preds[0]| > 0 && LineTypeKey !in cfg
    ensures ApiPredict(Request(hasFile, Some(lineType)), labels, cfg, preds) == Err(MissingConfigKey(LineTypeKey))
  {
    var r := Decode(preds, cfg);
    assert DecodeHead(preds, cfg, 0) == Err(MissingConfigKey(LineTypeKey));
    var k :| 0 <= k < |HeadKeys| && DecodeHead(preds, cfg, k) == Err(r.error)
             && forall j :: 0 <= j < k ==> DecodeHead(preds, cfg, j).Ok?;
    assert k == 0;
  }
}
