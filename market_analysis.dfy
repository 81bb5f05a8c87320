/** The analysis request of the Market Analysis page: a topic guard, then a
    request whose outcome fills either the analysis text or the error. */
module MarketAnalysisPanel {
  import opened Wrappers
  import opened JsStrings
  import Localization

  class Panel {
    var topic: string
    var analysis: string
    var isLoading: bool
    var error: Option<string>
    /** The language and tables of the `t` the in-flight handler closed over
        when it was started. */
    var capturedLanguage: Localization.Language
    var capturedTables: map<Localization.Language, Localization.Table>

    /** While the request is in flight the old analysis and error are cleared. */
    ghost predicate Valid()
      reads this
    {
      isLoading ==> analysis == "" && error == None
    }

    constructor ()
      ensures Valid()
      ensures topic == "BTC Halving" && analysis == "" && !isLoading && error == None
    {
      topic := "BTC Halving";
      analysis := "";
      isLoading := false;
      error := None;
      capturedLanguage := Localization.Vi;
      capturedTables := map[];
    }

    method SetTopic(s: string)
      modifies this`topic
      ensures topic == s
    {
      topic := s;
    }

    /** The first phase of `handleAnalysis`. A blank topic sets the
        translated `error_enterTopic` and leaves the latch and the analysis
        alone; otherwise the latch is set, error and analysis are cleared, and
        the topic, untrimmed, is what gets sent, and the handler keeps the
        provider's language and tables as they are now. The button that runs
        it is disabled while a request is in flight. */
    method Analyze(loc: Localization.LanguageProvider) returns (request: Option<string>)
      requires Valid() && !isLoading
      modifies this`analysis, this`isLoading, this`error, this`capturedLanguage, this`capturedTables
      ensures Valid()
      ensures request.None? <==> AllWhitespace(topic)
      ensures request.None? ==>
        && error == Some(Localization.Translate(loc.translations, loc.language, "error_enterTopic", []))
        && isLoading == old(isLoading) && analysis == old(analysis)
        && capturedLanguage == old(capturedLanguage) && capturedTables == old(capturedTables)
      ensures request.Some? ==>
        && request.value == topic && isLoading && error == None && analysis == ""
        && capturedLanguage == loc.language && capturedTables == loc.translations
    {
      BlankIffAllWhitespace(topic);
      if IsBlank(topic) {
        var message := loc.T("error_enterTopic", []);
        error := Some(message);
        return None;
      }
      isLoading := true;
      error := None;
      analysis := "";
      capturedLanguage := loc.language;
      capturedTables := loc.translations;
      request := Some(topic);
    }

    /** The request returned: the analysis is its text and the latch is released. */
    method Succeed(result: string)
      requires Valid() && isLoading
      modifies this`analysis, this`isLoading
      ensures Valid()
      ensures analysis == result && error == None && !isLoading
    {
      analysis := result;
      isLoading := false;
    }

    /** The request threw: `error_fetchAnalysis`, translated with the provider
        state captured when the request started, is shown, the analysis stays
        empty and the latch is released. */
    method Fail()
      requires Valid() && isLoading
      modifies this`error, this`isLoading
      ensures Valid()
      ensures error == Some(Localization.Translate(capturedTables, capturedLanguage, "error_fetchAnalysis", []))
      ensures analysis == "" && !isLoading
    {
      error := Some(Localization.Translate(capturedTables, capturedLanguage, "error_fetchAnalysis", []));
      isLoading := false;
    }
  }
}
