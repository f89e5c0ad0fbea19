/** `JigsawStackToolSet` of src/vercel-ai-toolkit.ts: the catalogue of AI SDK
    tools, the selection `getTools` makes from it, and the rules by which the
    `execute` functions choose what to send. The zod schemas are opaque and
    the API calls are described, not made. */
module ToolKit {
  import opened JsValues
  import VercelTool

  // ---------------------------------------------------------------------------
  // The catalogue.

  /** The tool names and descriptions `getAllTools` defines, in its order. */
  const Catalogue: seq<(string, string)> := [
    ("sentiment", "Analyze sentiment and emotion from text"),
    ("summary", "Summarize text content"),
    ("translate_text", "Translate text from one language to another"),
    ("translate_image", "Translate text in images from one language to another"),
    ("embedding", "Generate embeddings for text, images, audio, or PDF content"),
    ("prediction", "Make predictions based on historical data"),
    ("text_to_sql", "Convert natural language to SQL queries"),
    ("ai_scrape", "Scrape and extract data from websites using AI"),
    ("html_to_any", "Convert HTML content to various formats (PDF, PNG, etc.)"),
    ("web_search", "Search the web and get AI-powered results"),
    ("search_suggestions", "Get search suggestions for a query"),
    ("vocr", "Extract text from images using Vision OCR"),
    ("object_detection", "Detect objects in images"),
    ("speech_to_text", "Convert speech/audio to text"),
    ("text_to_speech", "Convert text to speech"),
    ("nsfw_detection", "Detect NSFW (Not Safe For Work) content in images"),
    ("profanity_check", "Check and filter profanity in text"),
    ("spell_check", "Check spelling and get auto-corrected text"),
    ("spam_check", "Check if text content is spam")
  ]

  /** One tool: `tool({ description, parameters, execute })`, its schema and
      its `execute` closure standing for themselves. */
  function ToolObject(name: string, description: string): Value
  {
    Obj(VercelTool.Tool(map["description" := Str(description), "parameters" := Opaque("schema:" + name), "execute" := Fn(name)]))
  }

  function CatalogueMap(entries: seq<(string, string)>): map<string, Value>
  {
    if entries == [] then map[]
    else
      var last := entries[|entries| - 1];
      CatalogueMap(entries[..|entries| - 1])[last.0 := ToolObject(last.0, last.1)]
  }

  /** `getAllTools()`: every catalogued tool under its name. */
  function AllTools(): (r: map<string, Value>)
    ensures forall k :: k in r ==> Truthy(r[k])
  {
    CatalogueMapTruthy(Catalogue);
    CatalogueMap(Catalogue)
  }

  lemma {:induction false} CatalogueMapTruthy(entries: seq<(string, string)>)
    ensures forall k :: k in CatalogueMap(entries) ==> Truthy(CatalogueMap(entries)[k])
  {
    if entries != [] {
      CatalogueMapTruthy(entries[..|entries| - 1]);
    }
  }

  // ---------------------------------------------------------------------------
  // getTools.

  /** The members every object inherits from `Object.prototype`, which the
      bracket lookup `availableTools[name]` finds although they are not own
      keys (`__proto__` is left aside: assigning it sets the prototype and
      creates no key). */
  const InheritedNames: set<string> := {
    "constructor", "hasOwnProperty", "isPrototypeOf", "propertyIsEnumerable",
    "toLocaleString", "toString", "valueOf",
    "__defineGetter__", "__defineSetter__", "__lookupGetter__", "__lookupSetter__"
  }

  /** `obj[name]` on a plain object: an own property, else an inherited one. */
  function BracketLookup(obj: map<string, Value>, name: string): (v: Value)
    ensures name in obj ==> v == obj[name]
    ensures name !in obj && name !in InheritedNames ==> v == Undefined
    ensures name !in obj && name in InheritedNames ==> Truthy(v)
  {
    if name in obj then obj[name]
    else if name in InheritedNames then Fn(name)
    else Undefined
  }

  /** The selection loop as the code has it: `if (availableTools[name])`
      copies whatever the bracket lookup finds, inherited members included. */
  function SelectAsWritten(available: map<string, Value>, requested: seq<string>): (r: map<string, Value>)
    ensures r.Keys <= available.Keys + InheritedNames
    ensures forall k :: k in r && k in available ==> r[k] == available[k]
  {
    if requested == [] then map[]
    else
      var name := requested[|requested| - 1];
      var sofar := SelectAsWritten(available, requested[..|requested| - 1]);
      if Truthy(BracketLookup(available, name)) then sofar[name := BracketLookup(available, name)] else sofar
  }

  /** `getTools(options)` as written. */
  function GetToolsAsWritten(requested: Option<seq<string>>): (r: map<string, Value>)
    ensures requested.None? || requested.value == [] ==> r == AllTools()
    ensures r.Keys <= AllTools().Keys + InheritedNames
    ensures forall k :: k in r && k in AllTools() ==> r[k] == AllTools()[k]
  {
    var names := if requested.Some? then requested.value else [];
    if |names| == 0 then AllTools() else SelectAsWritten(AllTools(), names)
  }

  /** Asking for "toString" yields a "toString" entry that is no tool. */
  lemma InheritedNameLeaks()
    ensures "toString" !in AllTools()
    ensures "toString" in GetToolsAsWritten(Some(["toString"]))
    ensures GetToolsAsWritten(Some(["toString"]))["toString"] == Fn("toString")
  {
    assert ["toString"][..0] == [];
    NotCatalogued(Catalogue, "toString");
  }

  /** A name no catalogue entry carries is not a key of the catalogue map. */
  lemma {:induction false} NotCatalogued(entries: seq<(string, string)>, name: string)
    requires forall i :: 0 <= i < |entries| ==> entries[i].0 != name
    ensures name !in CatalogueMap(entries)
  {
    if entries != [] {
      NotCatalogued(entries[..|entries| - 1], name);
    }
  }

  /** The selection the loop intends: the requested names the catalogue owns. */
  function Selected(available: map<string, Value>, requested: seq<string>): (r: map<string, Value>)
    ensures r.Keys <= available.Keys
    ensures forall k :: k in r ==> r[k] == available[k]
  {
    if requested == [] then map[]
    else
      var name := requested[|requested| - 1];
      var sofar := Selected(available, requested[..|requested| - 1]);
      if name in available && Truthy(available[name]) then sofar[name := available[name]] else sofar
  }

  /** The selection keeps exactly the requested names that own a truthy tool. */
  lemma {:induction false} SelectedKeys(available: map<string, Value>, requested: seq<string>)
    ensures Selected(available, requested).Keys
            == set i | 0 <= i < |requested| && requested[i] in available && Truthy(available[requested[i]]) :: requested[i]
  {
    if requested != [] {
      var init := requested[..|requested| - 1];
      SelectedKeys(available, init);
      assert forall i :: 0 <= i < |init| ==> init[i] == requested[i];
    }
  }

  /** When no inherited name is requested, the code as written makes the
      intended selection. */
  lemma {:induction false} AsWrittenAgreesOffPrototype(available: map<string, Value>, requested: seq<string>)
    requires forall i :: 0 <= i < |requested| ==> requested[i] !in InheritedNames
    ensures SelectAsWritten(available, requested) == Selected(available, requested)
  {
    if requested != [] {
      AsWrittenAgreesOffPrototype(available, requested[..|requested| - 1]);
    }
  }

  /** Off the prototype's member names, `getTools` as written keeps exactly
      the requested names the catalogue has, each with its catalogue tool:
      the selection `GetTools` makes. */
  lemma AsWrittenSelectsCatalogueNames(requested: seq<string>)
    requires requested != []
    requires forall i :: 0 <= i < |requested| ==> requested[i] !in InheritedNames
    ensures var r := GetToolsAsWritten(Some(requested));
            && r.Keys == (set i | 0 <= i < |requested| && requested[i] in AllTools() :: requested[i])
            && forall k :: k in r ==> r[k] == AllTools()[k]
  {
    AsWrittenAgreesOffPrototype(AllTools(), requested);
    SelectedKeys(AllTools(), requested);
  }

  /** `getTools(options)`, selecting by own keys: all tools when no names (or
      none) are requested, otherwise the requested tools the catalogue has,
      each the very tool object of the catalogue; unknown names are dropped. */
  method GetTools(requested: Option<seq<string>>) returns (result: map<string, Value>)
    ensures requested.None? || requested.value == [] ==> result == AllTools()
    ensures requested.Some? && requested.value != [] ==>
              result.Keys == (set i | 0 <= i < |requested.value| && requested.value[i] in AllTools() :: requested.value[i])
    ensures forall k :: k in result ==> k in AllTools() && result[k] == AllTools()[k]
  {
    var names := if requested.Some? then requested.value else [];
    var available := AllTools();
    if |names| == 0 {
      return available;
    }
    result := map[];
    for i := 0 to |names|
      invariant result == Selected(available, names[..i])
    {
      assert names[..i + 1][..i] == names[..i];
      var name := names[i];
      if name in available && Truthy(available[name]) {
        result := result[name := available[name]];
      }
    }
    assert names[..|names|] == names;
    SelectedKeys(available, names);
  }

  // ---------------------------------------------------------------------------
  // The `execute` functions that choose what to send.

  /** A call to an SDK endpoint: its dotted name and its argument object. */
  datatype ApiCall = ApiCall(endpoint: string, args: map<string, Value>)

  /** What an `execute` does: return the call's result, return a value of its
      own without calling, or make the call and then return a value of its own. */
  datatype Execution = Forward(call: ApiCall) | Reply(value: Value) | CallThenReply(call: ApiCall, reply: Value)

  /** Which image or document source a tool sends. */
  datatype Source = ByUrl | ByFileStoreKey | NoSource

  /** The precedence shared by the vision tools: a truthy `url` wins, then a
      truthy `file_store_key`. */
  function SourceOf(url: Value, fileStoreKey: Value): (s: Source)
    ensures s == ByUrl <==> Truthy(url)
    ensures s == ByFileStoreKey <==> !Truthy(url) && Truthy(fileStoreKey)
    ensures s == NoSource <==> !Truthy(url) && !Truthy(fileStoreKey)
  {
    if Truthy(url) then ByUrl else if Truthy(fileStoreKey) then ByFileStoreKey else NoSource
  }

  /** `x || "default"`. */
  function OrDefault(v: Value): (r: Value)
    ensures Truthy(v) ==> r == v
    ensures !Truthy(v) ==> r == Str("default")
  {
    if Truthy(v) then v else Str("default")
  }

  /** `summary`: always summarises as text. */
  function Summary(text: Value, url: Value, fileStoreKey: Value, maxCharacters: Value): (e: Execution)
    ensures e.Forward? && e.call.endpoint == "summary"
    ensures e.call.args.Keys == {"text", "url", "file_store_key", "type", "max_characters"}
    ensures e.call.args["type"] == Str("text")
    ensures e.call.args["text"] == text && e.call.args["url"] == url
    ensures e.call.args["file_store_key"] == fileStoreKey && e.call.args["max_characters"] == maxCharacters
  {
    Forward(ApiCall("summary", map["text" := text, "url" := url, "file_store_key" := fileStoreKey,
                                   "type" := Str("text"), "max_characters" := maxCharacters]))
  }

  /** `translate_image`: by URL, else by file store key, else a success
      message naming the target language and no call. */
  function TranslateImage(b: Builtins, url: Value, fileStoreKey: Value, targetLanguage: Value): (e: Execution)
    ensures SourceOf(url, fileStoreKey) == ByUrl ==>
              e == Forward(ApiCall("translate.image", map["url" := url, "target_language" := targetLanguage, "return_type" := Str("url")]))
    ensures SourceOf(url, fileStoreKey) == ByFileStoreKey ==>
              e == Forward(ApiCall("translate.image", map["file_store_key" := fileStoreKey, "target_language" := targetLanguage, "return_type" := Str("url")]))
    ensures SourceOf(url, fileStoreKey) == NoSource <==> e.Reply?
    ensures e.Reply? ==> e.value.Obj? && e.value.fields.Keys == {"success", "message", "target_language", "note"}
                         && e.value.fields["success"] == Bool(true)
                         && e.value.fields["target_language"] == targetLanguage
                         && e.value.fields["message"] == Str("Successfully translated image to " + b.toText(targetLanguage))
  {
    match SourceOf(url, fileStoreKey)
    case ByUrl =>
      Forward(ApiCall("translate.image", map["url" := url, "target_language" := targetLanguage, "return_type" := Str("url")]))
    case ByFileStoreKey =>
      Forward(ApiCall("translate.image", map["file_store_key" := fileStoreKey, "target_language" := targetLanguage, "return_type" := Str("url")]))
    case NoSource =>
      Reply(Obj(map[
        "success" := Bool(true),
        "message" := Str("Successfully translated image to " + b.toText(targetLanguage)),
        "target_language" := targetLanguage,
        "note" := Str("Image has been translated. Use jigsawStack.translate.image() directly to get the binary data.")]))
  }

  /** `text_to_sql`: a file store key wins over an inline schema; with
      neither only the prompt and the database are sent. */
  function TextToSql(prompt: Value, sqlSchema: Value, fileStoreKey: Value, database: Value): (e: Execution)
    ensures e.Forward? && e.call.endpoint == "text_to_sql"
    ensures "prompt" in e.call.args && e.call.args["prompt"] == prompt
    ensures "database" in e.call.args && e.call.args["database"] == database
    ensures "file_store_key" in e.call.args <==> Truthy(fileStoreKey)
    ensures "sql_schema" in e.call.args <==> !Truthy(fileStoreKey) && Truthy(sqlSchema)
    ensures e.call.args.Keys <= {"prompt", "sql_schema", "file_store_key", "database"}
    ensures forall k :: k in e.call.args && k == "file_store_key" ==> e.call.args[k] == fileStoreKey
    ensures forall k :: k in e.call.args && k == "sql_schema" ==> e.call.args[k] == sqlSchema
  {
    if Truthy(fileStoreKey) then
      Forward(ApiCall("text_to_sql", map["prompt" := prompt, "file_store_key" := fileStoreKey, "database" := database]))
    else if Truthy(sqlSchema) then
      Forward(ApiCall("text_to_sql", map["prompt" := prompt, "sql_schema" := sqlSchema, "database" := database]))
    else
      Forward(ApiCall("text_to_sql", map["prompt" := prompt, "database" := database]))
  }

  /** `html_to_any`: converts, then reports the format asked for or "default". */
  function HtmlToAny(html: Value, url: Value, format: Value, width: Value, height: Value, fullPage: Value): (e: Execution)
    ensures e.CallThenReply? && e.call.endpoint == "web.html_to_any"
    ensures e.call.args == map["html" := html, "url" := url, "type" := format, "width" := width, "height" := height, "full_page" := fullPage]
    ensures e.reply.Obj? && e.reply.fields.Keys == {"success", "message", "format", "note"}
    ensures e.reply.fields["success"] == Bool(true)
    ensures e.reply.fields["format"] == (if Truthy(format) then format else Str("default"))
  {
    CallThenReply(
      ApiCall("web.html_to_any", map["html" := html, "url" := url, "type" := format, "width" := width, "height" := height, "full_page" := fullPage]),
      Obj(map[
        "success" := Bool(true),
        "message" := Str("Successfully converted HTML content"),
        "format" := OrDefault(format),
        "note" := Str("Content has been converted. Use jigsawStack.web.html_to_any() directly to get the binary data.")]))
  }

  /** The zod default of `safe_search`. */
  function SafeSearchOrDefault(safeSearch: Value): Value
  {
    if safeSearch.Undefined? then Str("moderate") else safeSearch
  }

  /** `web_search`: never asks for an AI overview or automatic scraping; an
      omitted `safe_search` is "moderate". */
  function WebSearch(query: Value, safeSearch: Value): (e: Execution)
    ensures e.Forward? && e.call.endpoint == "web.search"
    ensures e.call.args.Keys == {"query", "safe_search", "ai_overview", "auto_scrape"}
    ensures e.call.args["ai_overview"] == Bool(false) && e.call.args["auto_scrape"] == Bool(false)
    ensures e.call.args["query"] == query
    ensures e.call.args["safe_search"] == (if safeSearch.Undefined? then Str("moderate") else safeSearch)
  {
    Forward(ApiCall("web.search", map["query" := query, "safe_search" := SafeSearchOrDefault(safeSearch),
                                      "ai_overview" := Bool(false), "auto_scrape" := Bool(false)]))
  }

  /** `vocr`: by URL, else by file store key, else nothing (undefined). */
  function Vocr(prompt: Value, url: Value, fileStoreKey: Value, pageRange: Value): (e: Execution)
    ensures SourceOf(url, fileStoreKey) == ByUrl ==>
              e == Forward(ApiCall("vision.vocr", map["prompt" := prompt, "url" := url, "page_range" := pageRange]))
    ensures SourceOf(url, fileStoreKey) == ByFileStoreKey ==>
              e == Forward(ApiCall("vision.vocr", map["prompt" := prompt, "file_store_key" := fileStoreKey, "page_range" := pageRange]))
    ensures SourceOf(url, fileStoreKey) == NoSource <==> e == Reply(Undefined)
  {
    match SourceOf(url, fileStoreKey)
    case ByUrl => Forward(ApiCall("vision.vocr", map["prompt" := prompt, "url" := url, "page_range" := pageRange]))
    case ByFileStoreKey => Forward(ApiCall("vision.vocr", map["prompt" := prompt, "file_store_key" := fileStoreKey, "page_range" := pageRange]))
    case NoSource => Reply(Undefined)
  }

  /** `object_detection`: by URL, else by file store key, else nothing. */
  function ObjectDetection(url: Value, fileStoreKey: Value): (e: Execution)
    ensures SourceOf(url, fileStoreKey) == ByUrl ==>
              e == Forward(ApiCall("vision.object_detection", map["url" := url, "return_type" := Str("url")]))
    ensures SourceOf(url, fileStoreKey) == ByFileStoreKey ==>
              e == Forward(ApiCall("vision.object_detection", map["file_store_key" := fileStoreKey, "return_type" := Str("url")]))
    ensures SourceOf(url, fileStoreKey) == NoSource <==> e == Reply(Undefined)
  {
    match SourceOf(url, fileStoreKey)
    case ByUrl => Forward(ApiCall("vision.object_detection", map["url" := url, "return_type" := Str("url")]))
    case ByFileStoreKey => Forward(ApiCall("vision.object_detection", map["file_store_key" := fileStoreKey, "return_type" := Str("url")]))
    case NoSource => Reply(Undefined)
  }

  /** `text_to_speech`: speaks, then reports the text length and the accent
      asked for or "default". The length counts code points (`char`s), where
      JavaScript counts UTF-16 units. */
  function TextToSpeech(text: string, accent: Value, voiceCloneId: Value): (e: Execution)
    ensures e.CallThenReply? && e.call.endpoint == "audio.text_to_speech"
    ensures e.call.args == map["text" := Str(text), "accent" := accent, "voice_clone_id" := voiceCloneId]
    ensures e.reply.Obj? && e.reply.fields.Keys == {"success", "message", "text_length", "accent_used", "note"}
    ensures e.reply.fields["text_length"] == Num(|text| as real)
    ensures e.reply.fields["accent_used"] == (if Truthy(accent) then accent else Str("default"))
  {
    CallThenReply(
      ApiCall("audio.text_to_speech", map["text" := Str(text), "accent" := accent, "voice_clone_id" := voiceCloneId]),
      Obj(map[
        "success" := Bool(true),
        "message" := Str("Successfully converted text to speech"),
        "text_length" := Num(|text| as real),
        "accent_used" := OrDefault(accent),
        "note" := Str("Audio has been generated. Use jigsawStack.audio.text_to_speech() directly to get the binary data.")]))
  }

  /** The source a call sends, read back from its arguments. */
  function SentSource(e: Execution): Source
  {
    if e.Forward? && "url" in e.call.args then ByUrl
    else if e.Forward? && "file_store_key" in e.call.args then ByFileStoreKey
    else NoSource
  }

  /** The three vision tools send the same source for the same inputs, and
      never both a URL and a file store key. */
  lemma VisionToolsAgreeOnSource(b: Builtins, prompt: Value, url: Value, fileStoreKey: Value, pageRange: Value, target: Value)
    ensures SentSource(TranslateImage(b, url, fileStoreKey, target)) == SourceOf(url, fileStoreKey)
    ensures SentSource(Vocr(prompt, url, fileStoreKey, pageRange)) == SourceOf(url, fileStoreKey)
    ensures SentSource(ObjectDetection(url, fileStoreKey)) == SourceOf(url, fileStoreKey)
    ensures var e := Vocr(prompt, url, fileStoreKey, pageRange);
            e.Forward? ==> !("url" in e.call.args && "file_store_key" in e.call.args)
  {
  }

  /** An empty-string URL counts as absent: the file store key is used. */
  lemma EmptyUrlFallsBack(b: Builtins, fileStoreKey: string, target: Value)
    requires fileStoreKey != ""
    ensures TranslateImage(b, Str(""), Str(fileStoreKey), target).call.args["file_store_key"] == Str(fileStoreKey)
    ensures "url" !in ObjectDetection(Str(""), Str(fileStoreKey)).call.args
  {
  }
}
