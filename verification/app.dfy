/**
 * The `App` component's prediction state and the handlers that drive it. React's state
 * setters are modelled as immediate assignments to the fields of one `App` object. The
 * prediction space and `JSON.parse` are fixed for the component's lifetime; the mount
 * probe's answer and the mock's random draws are parameters.
 */
module App {
  import opened Wrappers
  import opened Js
  import opened Ranking
  import opened MockPrediction
  import opened PredictionService

  class App {
    /** The predictions on display. */
    var predictions: seq<Prediction>
    var isLoading: bool
    /** The error on display, `null` as `None`. */
    var error: Option<string>
    /** Whether the prediction space is reachable: `null` (not yet known) as `None`. */
    var apiAvailable: Option<bool>
    /** How many times `makePrediction` has been called. */
    ghost var remoteCalls: nat

    /** `API_CONFIG.topK`, the prediction space and `JSON.parse`. */
    const topK: nat
    const server: Server
    const parse: string -> Parsed

    /** Whatever is on display has the shape of a prediction result: sorted, every label valid. */
    ghost predicate Valid()
      reads this
    {
      topK > 0 && SortedDesc(predictions) && forall i :: 0 <= i < |predictions| ==> ValidLabel(predictions[i])
    }

    /** The initial state of the four `useState` hooks. */
    constructor(topK: nat, server: Server, parse: string -> Parsed)
      requires topK > 0
      ensures Valid()
      ensures predictions == [] && !isLoading && error == None && apiAvailable == None && remoteCalls == 0
      ensures this.topK == topK && this.server == server && this.parse == parse
    {
      predictions := [];
      isLoading := false;
      error := None;
      apiAvailable := None;
      remoteCalls := 0;
      this.topK := topK;
      this.server := server;
      this.parse := parse;
    }

    /** The mount effect: records the answer of the connection probe and nothing else. */
    method CheckApiConnection(isAvailable: bool)
      requires Valid()
      modifies this
      ensures Valid()
      ensures apiAvailable == Some(isAvailable)
      ensures predictions == old(predictions) && isLoading == old(isLoading) && error == old(error)
      ensures remoteCalls == old(remoteCalls)
    {
      apiAvailable := Some(isAvailable);
    }

    /** The start of `handlePrediction`: loading, and no error on display. */
    method BeginPrediction()
      modifies this
      ensures isLoading && error == None
      ensures predictions == old(predictions) && apiAvailable == old(apiAvailable) && remoteCalls == old(remoteCalls)
    {
      isLoading := true;
      error := None;
    }

    /**
     * The rest of `handlePrediction`. When the space is known to be unreachable the mock
     * is used and no remote call is made; otherwise the remote call is made, its result
     * is shown on success, and on failure the mock is shown and the space is marked
     * unreachable. The remote error never reaches `error`; loading always ends.
     */
    method CompletePrediction(imageData: string, draws: seq<real>)
      requires Valid() && IsDraw(draws)
      modifies this
      ensures Valid()
      ensures !isLoading && error == old(error)
      ensures old(apiAvailable) == Some(false) ==>
                predictions == MakeMockPrediction(draws) && apiAvailable == Some(false) &&
                remoteCalls == old(remoteCalls)
      ensures old(apiAvailable) != Some(false) ==> remoteCalls == old(remoteCalls) + 1
      ensures old(apiAvailable) != Some(false) && MakePrediction(imageData, "", topK, server, parse).Ok? ==>
                predictions == MakePrediction(imageData, "", topK, server, parse).value &&
                apiAvailable == old(apiAvailable)
      ensures old(apiAvailable) != Some(false) && MakePrediction(imageData, "", topK, server, parse).Err? ==>
                predictions == MakeMockPrediction(draws) && apiAvailable == Some(false)
      ensures apiAvailable == old(apiAvailable) || apiAvailable == Some(false)
    {
      var predictionResults: seq<Prediction>;
      if apiAvailable == Some(false) {
        predictionResults := MakeMockPrediction(draws);
      } else {
        remoteCalls := remoteCalls + 1;
        match MakePrediction(imageData, "", topK, server, parse)
        case Ok(results) =>
          predictionResults := results;
        case Err(_) =>
          predictionResults := MakeMockPrediction(draws);
          apiAvailable := Some(false);
      }
      MockIsRanked(draws);
      predictions := predictionResults;
      isLoading := false;
    }

    /** `handlePrediction(imageData)`, with `draws` the mock's random draws should it be used. */
    method HandlePrediction(imageData: string, draws: seq<real>)
      requires Valid() && IsDraw(draws)
      modifies this
      ensures Valid()
      ensures !isLoading && error == None
      ensures old(apiAvailable) == Some(false) ==>
                predictions == MakeMockPrediction(draws) && apiAvailable == Some(false) &&
                remoteCalls == old(remoteCalls)
      ensures old(apiAvailable) != Some(false) ==> remoteCalls == old(remoteCalls) + 1
      ensures old(apiAvailable) != Some(false) && MakePrediction(imageData, "", topK, server, parse).Ok? ==>
                predictions == MakePrediction(imageData, "", topK, server, parse).value &&
                apiAvailable == old(apiAvailable)
      ensures old(apiAvailable) != Some(false) && MakePrediction(imageData, "", topK, server, parse).Err? ==>
                predictions == MakeMockPrediction(draws) && apiAvailable == Some(false)
      ensures apiAvailable == old(apiAvailable) || apiAvailable == Some(false)
    {
      BeginPrediction();
      CompletePrediction(imageData, draws);
    }

    /** `handleRetry`: clears the error and the predictions and touches nothing else. */
    method HandleRetry()
      requires Valid()
      modifies this
      ensures Valid()
      ensures error == None && predictions == []
      ensures isLoading == old(isLoading) && apiAvailable == old(apiAvailable) && remoteCalls == old(remoteCalls)
    {
      error := None;
      predictions := [];
    }
  }
}
