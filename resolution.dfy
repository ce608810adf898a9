/**
 * How the browser turns what the user typed or said into the address it
 * hands to the rendering engine (`load_url` and `voice_search` in brow.py).
 */
module Resolution {
  import opened Strings

  /** The literal prefix `load_url` and `voice_search` test for. */
  const Http := "http"

  /** The scheme `voice_search` puts in front of a bare host name. */
  const HttpScheme := "http://"

  /** The name the browser selects at start-up. */
  const DefaultEngine := "Google"

  /**
   * A template whose only replacement field is a trailing `{}`: no other brace
   * comes before it. For such a template Python's `str.format(q)` is the text
   * before `{}` followed by `str(q)`, with no escaping of `q`.
   */
  predicate IsTemplate(t: string)
  {
    && |t| >= 2 && t[|t| - 2..] == "{}"
    && '{' !in t[..|t| - 2] && '}' !in t[..|t| - 2]
  }

  const GoogleTemplate := "https://www.google.com/search?q={}"
  const BingTemplate := "https://www.bing.com/search?q={}"
  const DuckDuckGoTemplate := "https://duckduckgo.com/?q={}"

  /** The Google template is an https address followed by one trailing `{}`. */
  lemma GoogleTemplateWellFormed()
    ensures IsTemplate(GoogleTemplate) && GoogleTemplate[..8] == "https://"
  {
    assert GoogleTemplate[..|GoogleTemplate| - 2] == "https://www.google.com/search?q=";
  }

  /** The Bing template is an https address followed by one trailing `{}`. */
  lemma BingTemplateWellFormed()
    ensures IsTemplate(BingTemplate) && BingTemplate[..8] == "https://"
  {
    assert BingTemplate[..|BingTemplate| - 2] == "https://www.bing.com/search?q=";
  }

  /** The DuckDuckGo template is an https address followed by one trailing `{}`. */
  lemma DuckDuckGoTemplateWellFormed()
    ensures IsTemplate(DuckDuckGoTemplate) && DuckDuckGoTemplate[..8] == "https://"
  {
    assert DuckDuckGoTemplate[..|DuckDuckGoTemplate| - 2] == "https://duckduckgo.com/?q=";
  }

  /** The `search_engines` table: engine name to query template. */
  function SearchEngines(): (table: map<string, string>)
    ensures table.Keys == {"Google", "Bing", "DuckDuckGo"}
    ensures forall engine | engine in table :: IsTemplate(table[engine]) && StartsWith(table[engine], "https://")
  {
    GoogleTemplateWellFormed();
    BingTemplateWellFormed();
    DuckDuckGoTemplateWellFormed();
    map["Google" := GoogleTemplate, "Bing" := BingTemplate, "DuckDuckGo" := DuckDuckGoTemplate]
  }

  /** `template.format(arg)` for a template with one trailing `{}`: the field is replaced by `arg` verbatim. */
  function Format(template: string, arg: string): (r: string)
    requires IsTemplate(template)
    ensures |r| == |template| - 2 + |arg|
    ensures r[..|template| - 2] == template[..|template| - 2]
    ensures r[|template| - 2..] == arg
  {
    template[..|template| - 2] + arg
  }

  /** The template of a known engine: a single trailing `{}` after an https address. */
  function Template(engine: string): (t: string)
    requires engine in SearchEngines()
    ensures IsTemplate(t) && StartsWith(t, "https://")
  {
    SearchEngines()[engine]
  }

  /** The search address a known engine builds from `query`. */
  function SearchUrl(engine: string, query: string): (url: string)
    requires engine in SearchEngines()
    ensures StartsWith(url, "https://")
    ensures |query| < |url| && url[|url| - |query|..] == query
  {
    var t := Template(engine);
    assert StartsWith(t[..|t| - 2], "https://");
    StartsWithAppend("https://", t[..|t| - 2], query);
    Format(t, query)
  }

  /** Whether `load_url` navigates to the typed text itself rather than to a search. */
  predicate IsLiteralAddress(text: string)
  {
    StartsWith(text, Http)
  }

  /**
   * The address `load_url` navigates to for the text typed in an address bar.
   * Looking up an engine name missing from the table raises `KeyError` in the
   * source, so that lookup is a precondition, needed only on the search branch.
   */
  function ResolveTyped(text: string, engine: string): (url: string)
    requires IsLiteralAddress(text) || engine in SearchEngines()
    ensures StartsWith(url, Http)
  {
    if !StartsWith(text, Http) then
      var url := SearchUrl(engine, text);
      StartsWithTransitive(url, "https://", Http);
      url
    else
      text
  }

  /** Whether `voice_search` needs the engine table for `query`. */
  predicate VoiceUsesEngine(query: string)
  {
    !StartsWith(query, Http) && '.' !in query
  }

  /**
   * The address `voice_search` opens in a new tab for an already recognised
   * and stripped query.
   */
  function ResolveVoice(query: string, engine: string): (url: string)
    requires !VoiceUsesEngine(query) || engine in SearchEngines()
    ensures StartsWith(url, Http)
  {
    if StartsWith(query, Http) || '.' in query then
      if StartsWith(query, Http) then query
      else
        StartsWithAppend(Http, HttpScheme, query);
        HttpScheme + query
    else
      var url := SearchUrl(engine, query);
      StartsWithTransitive(url, "https://", Http);
      url
  }

  /**
   * Typed text is either passed through verbatim or is the query of a search
   * address, and it can be read back from the end of that address.
   */
  lemma ResolveTypedCases(text: string, engine: string)
    requires IsLiteralAddress(text) || engine in SearchEngines()
    ensures IsLiteralAddress(text) ==> ResolveTyped(text, engine) == text
    ensures !IsLiteralAddress(text) ==>
      var url := ResolveTyped(text, engine);
      url == SearchUrl(engine, text) && url != text && url[|url| - |text|..] == text
  {
    if !IsLiteralAddress(text) {
      var url := ResolveTyped(text, engine);
      assert StartsWith(url, Http);
      assert url != text;
    }
  }

  /** Two different search queries never produce the same search address. */
  lemma SearchUrlInjective(engine: string, a: string, b: string)
    requires engine in SearchEngines()
    requires SearchUrl(engine, a) == SearchUrl(engine, b)
    ensures a == b
  {
    var p := Template(engine)[..|Template(engine)| - 2];
    assert SearchUrl(engine, a) == p + a && SearchUrl(engine, b) == p + b;
    assert a == (p + a)[|p|..] && b == (p + b)[|p|..];
  }

  /** Resolving an already resolved address changes nothing, whatever engine is selected then. */
  lemma ResolveTypedIdempotent(text: string, engine: string, later: string)
    requires IsLiteralAddress(text) || engine in SearchEngines()
    ensures ResolveTyped(ResolveTyped(text, engine), later) == ResolveTyped(text, engine)
  {
  }

  /** Resolving a voice result again, as typed text, changes nothing. */
  lemma ResolveVoiceIdempotent(query: string, engine: string, later: string)
    requires !VoiceUsesEngine(query) || engine in SearchEngines()
    ensures ResolveTyped(ResolveVoice(query, engine), later) == ResolveVoice(query, engine)
    ensures ResolveVoice(ResolveVoice(query, engine), later) == ResolveVoice(query, engine)
  {
  }

  /**
   * Voice and typed resolution agree exactly when the query is not a bare
   * dotted host name: `"openai.com"` spoken opens `http://openai.com`, typed
   * it becomes a search.
   */
  lemma VoiceAgreesWithTyped(query: string, engine: string)
    requires engine in SearchEngines()
    ensures ResolveVoice(query, engine) == ResolveTyped(query, engine)
        <==> (StartsWith(query, Http) || '.' !in query)
  {
    if StartsWith(query, Http) {
      assert ResolveVoice(query, engine) == query == ResolveTyped(query, engine);
    } else if '.' !in query {
      assert ResolveVoice(query, engine) == SearchUrl(engine, query) == ResolveTyped(query, engine);
    } else {
      var v := HttpScheme + query;
      assert ResolveVoice(query, engine) == v && v[4] == ':';
      var t := SearchUrl(engine, query);
      assert ResolveTyped(query, engine) == t;
      assert t[4] == t[..8][4] == 's';
    }
  }

  /** Typed `openai.com` becomes the Google search for it. */
  lemma GoogleSearchExample()
    ensures ResolveTyped("openai.com", DefaultEngine) == "https://www.google.com/search?q=openai.com"
  {
    assert !StartsWith("openai.com", Http) by { assert "openai.com"[..4] == "open"; }
    assert ResolveTyped("openai.com", DefaultEngine) == SearchUrl(DefaultEngine, "openai.com");
    assert Template(DefaultEngine) == GoogleTemplate;
    assert SearchUrl(DefaultEngine, "openai.com") == Format(GoogleTemplate, "openai.com");
    assert GoogleTemplate[..|GoogleTemplate| - 2] == "https://www.google.com/search?q=";
    assert Format(GoogleTemplate, "openai.com") == "https://www.google.com/search?q=" + "openai.com";
  }

  /** Typed text starting with `http`, an address or not, passes through. */
  lemma HttpPrefixExamples()
    ensures ResolveTyped("https://openai.com", DefaultEngine) == "https://openai.com"
    ensures ResolveTyped("httpfoo", DefaultEngine) == "httpfoo"
  {
    assert StartsWith("https://openai.com", Http) by { assert "https://openai.com"[..4] == Http; }
    assert StartsWith("httpfoo", Http) by { assert "httpfoo"[..4] == Http; }
  }
}
