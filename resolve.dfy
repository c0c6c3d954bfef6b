/** The server-side input resolver of the UI (ui/app/utils/resolve.server.ts).

    An input holds messages, a message holds content items, and a content item
    is a tagged union. Resolution is a structure-preserving map over that tree:
    every item kind except `image` is passed through, and an `image` item is
    replaced by one that carries a `data:` URL built from a blob fetched from the
    object store, or by an `image_error` item when fetching or parsing fails.

    The object store and `JSON.parse` are collaborators the model cannot see;
    they are the two fields of an `Env` value. `Promise.all` over `map` is
    modelled as a sequential map that keeps the order of its input. */
module Resolve {
  import opened Wrappers

  /** The object-store key of an image blob. */
  datatype StoragePath = StoragePath(kind: string, path: string)

  /** The `image` field of an image item: its URL (absent until resolved) and
      its declared MIME type. */
  datatype ImageField = ImageField(url: Option<string>, mimeType: string)

  /** Every shape of content item the resolver reads or produces, one
      constructor per shape. Two shapes carry the `type` tag "text":
      `{type: "text", value}` (Text) and `{type: "text", text}` (TextField),
      the second being the shape of stored model-inference inputs. */
  datatype Content =
    | Text(value: string)
    | TextField(text: string)
    | ToolCall(id: string, name: string, arguments: string)
    | ToolResult(id: string, name: string, result: string)
    | RawText(value: string)
    | Image(image: ImageField, storagePath: StoragePath)
    | ImageError(error: string)

  /** The item's `type` tag. */
  function Tag(c: Content): string
  {
    match c
    case Text(_) => "text"
    case TextField(_) => "text"
    case ToolCall(_, _, _) => "tool_call"
    case ToolResult(_, _, _) => "tool_result"
    case RawText(_) => "raw_text"
    case Image(_, _) => "image"
    case ImageError(_) => "image_error"
  }

  /** The tags the resolver's `switch` statements have a case for. */
  const SwitchTags: set<string> := {"text", "tool_call", "tool_result", "raw_text", "image"}

  /** An item whose tag the `switch` of resolveContent handles. */
  predicate Dispatchable(c: Content)
  {
    Tag(c) in SwitchTags
  }

  /** Shape of an item of an `Input` (InputMessageContent). */
  predicate IsInputContent(c: Content)
  {
    c.Text? || c.ToolCall? || c.ToolResult? || c.RawText? || c.Image?
  }

  /** Shape of an item of a `ModelInferenceInput`: text is `{type, text}`. */
  predicate IsModelInferenceContent(c: Content)
  {
    c.TextField? || c.ToolCall? || c.ToolResult? || c.RawText? || c.Image?
  }

  /** Shape of an item of a `ResolvedInput`: text is `{type, value}` and every
      image carries a URL, or has been replaced by an `image_error` item. */
  predicate IsResolvedContent(c: Content)
  {
    c.Text? || c.ToolCall? || c.ToolResult? || c.RawText? || c.ImageError?
    || (c.Image? && c.image.url.Some?)
  }

  datatype Role = User | Assistant

  datatype Message = Message(role: Role, content: seq<Content>)

  /** The fields of an input other than `messages` are represented by `system`. */
  datatype Input = Input(system: Option<string>, messages: seq<Message>)

  predicate DispatchableMessage(m: Message)
  {
    forall j :: 0 <= j < |m.content| ==> Dispatchable(m.content[j])
  }

  predicate DispatchableMessages(ms: seq<Message>)
  {
    forall i :: 0 <= i < |ms| ==> DispatchableMessage(ms[i])
  }

  predicate IsInputMessage(m: Message)
  {
    forall j :: 0 <= j < |m.content| ==> IsInputContent(m.content[j])
  }

  predicate IsModelInferenceMessage(m: Message)
  {
    forall j :: 0 <= j < |m.content| ==> IsModelInferenceContent(m.content[j])
  }

  predicate IsResolvedMessage(m: Message)
  {
    forall j :: 0 <= j < |m.content| ==> IsResolvedContent(m.content[j])
  }

  predicate IsInput(input: Input)
  {
    forall i :: 0 <= i < |input.messages| ==> IsInputMessage(input.messages[i])
  }

  predicate IsModelInferenceInput(input: Input)
  {
    forall i :: 0 <= i < |input.messages| ==> IsModelInferenceMessage(input.messages[i])
  }

  predicate IsResolvedInput(input: Input)
  {
    forall i :: 0 <= i < |input.messages| ==> IsResolvedMessage(input.messages[i])
  }

  /** The parsed JSON document of an image blob; `data` is its `data` field as
      a template literal renders it. */
  datatype Json = Json(data: string)

  /** The collaborators: the object store's `getObject` and `JSON.parse`
      (which also stands for reading `data` off the parsed value). Each either
      returns a value or throws an error with a message. */
  datatype Env = Env(getObject: StoragePath -> Result<string>, parseJson: string -> Result<Json>)

  // ---------------------------------------------------------------------------
  // Data URLs

  /** The data URL of a base64 payload with a declared MIME type. */
  function DataUrl(mimeType: string, data: string): string
  {
    "data:" + mimeType + ";base64," + data
  }

  /** Index of the first `ch` in `s`, or `|s|` when there is none. */
  function IndexOf(s: string, ch: char): (k: nat)
    ensures k <= |s|
    ensures k < |s| ==> s[k] == ch
    ensures forall j :: 0 <= j < k ==> s[j] != ch
  {
    if s == [] then 0 else if s[0] == ch then 0 else 1 + IndexOf(s[1..], ch)
  }

  /** Reads the MIME type and the payload back from a base64 data URL whose
      media type ends at its first `;`. */
  function ParseDataUrl(url: string): Option<(string, string)>
  {
    if |url| < 5 || url[..5] != "data:" then None
    else
      var rest := url[5..];
      var k := IndexOf(rest, ';');
      if |rest| - k < 8 || rest[k..k + 8] != ";base64," then None
      else Some((rest[..k], rest[k + 8..]))
  }

  /** A data URL built from a MIME type without parameters gives back that
      MIME type and the payload. */
  lemma {:induction false} DataUrlRoundTrip(mimeType: string, data: string)
    requires ';' !in mimeType
    ensures ParseDataUrl(DataUrl(mimeType, data)) == Some((mimeType, data))
  {
    var url := DataUrl(mimeType, data);
    var rest := mimeType + ";base64," + data;
    assert url[..5] == "data:" && url[5..] == rest;
    assert rest[|mimeType|] == ';';
    var k := IndexOf(rest, ';');
    assert forall j :: 0 <= j < |mimeType| ==> rest[j] == mimeType[j];
    assert k == |mimeType|;
    assert rest[k..k + 8] == ";base64,";
    assert rest[..k] == mimeType && rest[k + 8..] == data;
  }

  /** Distinct (MIME type, payload) pairs give distinct data URLs. */
  lemma {:induction false} DataUrlInjective(m1: string, d1: string, m2: string, d2: string)
    requires ';' !in m1 && ';' !in m2
    requires DataUrl(m1, d1) == DataUrl(m2, d2)
    ensures m1 == m2 && d1 == d2
  {
    DataUrlRoundTrip(m1, d1);
    DataUrlRoundTrip(m2, d2);
  }

  // ---------------------------------------------------------------------------
  // resolveImage

  /** Fetches the blob at `path`, parses it, and builds the resolved image
      from the declared MIME type; the first failure becomes `Err`. */
  function ResolveImage(env: Env, image: ImageField, path: StoragePath): (r: Result<ImageField>)
    ensures env.getObject(path).Err? ==> r == Err(env.getObject(path).message)
    ensures env.getObject(path).Ok? && env.parseJson(env.getObject(path).value).Err? ==>
              r == Err(env.parseJson(env.getObject(path).value).message)
    ensures r.Ok? <==> env.getObject(path).Ok? && env.parseJson(env.getObject(path).value).Ok?
    ensures r.Ok? ==> r.value.mimeType == image.mimeType
    ensures r.Ok? ==> r.value.url == Some(DataUrl(image.mimeType, env.parseJson(env.getObject(path).value).value.data))
  {
    match env.getObject(path)
    case Err(e) => Err(e)
    case Ok(obj) =>
      match env.parseJson(obj)
      case Err(e) => Err(e)
      case Ok(json) =>
        Ok(ImageField(Some(DataUrl(image.mimeType, json.data)), image.mimeType))
  }

  // ---------------------------------------------------------------------------
  // The `Input` path: resolveContent, resolveMessage, resolveMessages, resolveInput

  /** Passes text, tool-call, tool-result and raw-text items through and
      resolves an image item, turning any failure into an `image_error` item. */
  function ResolveContent(env: Env, c: Content): (r: Content)
    requires Dispatchable(c)
    ensures !c.Image? ==> r == c
    ensures c.Image? ==> (r.Image? <==> ResolveImage(env, c.image, c.storagePath).Ok?)
    ensures c.Image? && r.Image? ==>
              r.storagePath == c.storagePath && r.image == ResolveImage(env, c.image, c.storagePath).value
    ensures c.Image? && ResolveImage(env, c.image, c.storagePath).Err? ==>
              r == ImageError(ResolveImage(env, c.image, c.storagePath).message)
    ensures r.ImageError? ==> c.Image?
    ensures IsInputContent(c) ==> IsResolvedContent(r)
  {
    match c
    case Image(image, path) =>
      (match ResolveImage(env, image, path)
       case Ok(resolved) => c.(image := resolved)
       case Err(msg) => ImageError(msg))
    case _ => c
  }

  /** `Promise.all(contents.map(resolveContent))`, as an order-preserving map. */
  function ResolveContents(env: Env, cs: seq<Content>): (rs: seq<Content>)
    requires forall j :: 0 <= j < |cs| ==> Dispatchable(cs[j])
    ensures |rs| == |cs|
    ensures forall j :: 0 <= j < |cs| ==> rs[j] == ResolveContent(env, cs[j])
  {
    if cs == [] then [] else [ResolveContent(env, cs[0])] + ResolveContents(env, cs[1..])
  }

  /** Copies the message with its content items resolved one by one. */
  function ResolveMessage(env: Env, m: Message): (r: Message)
    requires DispatchableMessage(m)
    ensures r.role == m.role
    ensures |r.content| == |m.content|
    ensures forall j :: 0 <= j < |m.content| ==> r.content[j] == ResolveContent(env, m.content[j])
    ensures IsInputMessage(m) ==> IsResolvedMessage(r)
  {
    m.(content := ResolveContents(env, m.content))
  }

  /** `Promise.all(messages.map(resolveMessage))`, as an order-preserving map. */
  function ResolveMessages(env: Env, ms: seq<Message>): (rs: seq<Message>)
    requires DispatchableMessages(ms)
    ensures |rs| == |ms|
    ensures forall i :: 0 <= i < |ms| ==> rs[i] == ResolveMessage(env, ms[i])
  {
    if ms == [] then [] else [ResolveMessage(env, ms[0])] + ResolveMessages(env, ms[1..])
  }

  /** Copies the input with its messages resolved. */
  function ResolveInput(env: Env, input: Input): (r: Input)
    requires DispatchableMessages(input.messages)
    ensures r.system == input.system
    ensures |r.messages| == |input.messages|
    ensures forall i :: 0 <= i < |input.messages| ==> r.messages[i] == ResolveMessage(env, input.messages[i])
    ensures IsInput(input) ==> IsResolvedInput(r)
  {
    input.(messages := ResolveMessages(env, input.messages))
  }

  // ---------------------------------------------------------------------------
  // The `ModelInferenceInput` path

  /** Rewrites a `{type, text}` item into `{type: "text", value}`; every other
      kind is handled exactly as on the `Input` path, images included. */
  function ResolveModelInferenceContent(env: Env, c: Content): (r: Content)
    requires IsModelInferenceContent(c)
    ensures c.TextField? ==> r == Text(c.text)
    ensures !c.TextField? ==> r == ResolveContent(env, c)
    ensures IsResolvedContent(r)
  {
    match c
    case TextField(text) => Text(text)
    case Image(image, path) =>
      (match ResolveImage(env, image, path)
       case Ok(resolved) => c.(image := resolved)
       case Err(msg) => ImageError(msg))
    case _ => c
  }

  function ResolveModelInferenceContents(env: Env, cs: seq<Content>): (rs: seq<Content>)
    requires forall j :: 0 <= j < |cs| ==> IsModelInferenceContent(cs[j])
    ensures |rs| == |cs|
    ensures forall j :: 0 <= j < |cs| ==> rs[j] == ResolveModelInferenceContent(env, cs[j])
  {
    if cs == [] then [] else [ResolveModelInferenceContent(env, cs[0])] + ResolveModelInferenceContents(env, cs[1..])
  }

  function ResolveModelInferenceMessage(env: Env, m: Message): (r: Message)
    requires IsModelInferenceMessage(m)
    ensures r.role == m.role
    ensures |r.content| == |m.content|
    ensures forall j :: 0 <= j < |m.content| ==> r.content[j] == ResolveModelInferenceContent(env, m.content[j])
    ensures IsResolvedMessage(r)
  {
    m.(content := ResolveModelInferenceContents(env, m.content))
  }

  function ResolveModelInferenceMessages(env: Env, ms: seq<Message>): (rs: seq<Message>)
    requires forall i :: 0 <= i < |ms| ==> IsModelInferenceMessage(ms[i])
    ensures |rs| == |ms|
    ensures forall i :: 0 <= i < |ms| ==> rs[i] == ResolveModelInferenceMessage(env, ms[i])
  {
    if ms == [] then [] else [ResolveModelInferenceMessage(env, ms[0])] + ResolveModelInferenceMessages(env, ms[1..])
  }

  /** resolveModelInferenceInput as written: it resolves its messages with
      resolveMessages, the `Input` path, so it behaves exactly like
      resolveInput and leaves `{type, text}` items as they are. */
  function ResolveModelInferenceInput(env: Env, input: Input): (r: Input)
    requires IsModelInferenceInput(input)
    ensures r.system == input.system
    ensures |r.messages| == |input.messages|
    ensures DispatchableMessages(input.messages) && r == ResolveInput(env, input)
  {
    input.(messages := ResolveMessages(env, input.messages))
  }

  /** resolveModelInferenceInput as evidently intended: resolving through
      resolveModelInferenceMessages, which yields a resolved input. */
  function ResolveModelInferenceInputIntended(env: Env, input: Input): (r: Input)
    requires IsModelInferenceInput(input)
    ensures r.system == input.system
    ensures |r.messages| == |input.messages|
    ensures forall i :: 0 <= i < |input.messages| ==>
              r.messages[i] == ResolveModelInferenceMessage(env, input.messages[i])
    ensures IsResolvedInput(r)
  {
    input.(messages := ResolveModelInferenceMessages(env, input.messages))
  }

  /** Does some message of the input hold a `{type, text}` item? */
  predicate HasTextField(input: Input)
  {
    exists i, j :: 0 <= i < |input.messages| && 0 <= j < |input.messages[i].content|
                   && input.messages[i].content[j].TextField?
  }

  /** As written, the model-inference entry point yields a resolved input
      exactly when its input holds no `{type, text}` item. */
  lemma AsWrittenResolvedIffNoTextField(env: Env, input: Input)
    requires IsModelInferenceInput(input)
    ensures IsResolvedInput(ResolveModelInferenceInput(env, input)) <==> !HasTextField(input)
  {
  }

  /** The smallest input showing the difference: one message holding the
      model-inference text item "hello". */
  lemma TextNotRewrittenAsWritten(env: Env)
    ensures var input := Input(None, [Message(User, [TextField("hello")])]);
            IsModelInferenceInput(input)
            && ResolveModelInferenceInput(env, input).messages[0].content == [TextField("hello")]
            && !IsResolvedInput(ResolveModelInferenceInput(env, input))
            && ResolveModelInferenceInputIntended(env, input).messages[0].content == [Text("hello")]
  {
  }

  // ---------------------------------------------------------------------------
  // Per-item isolation of failures

  /** Replacing one item changes no other item's resolution. */
  lemma SiblingsResolveIndependently(env: Env, cs: seq<Content>, k: nat, c: Content)
    requires forall j :: 0 <= j < |cs| ==> Dispatchable(cs[j])
    requires k < |cs| && Dispatchable(c)
    ensures |ResolveContents(env, cs[k := c])| == |cs|
    ensures forall j :: 0 <= j < |cs| && j != k ==>
              ResolveContents(env, cs[k := c])[j] == ResolveContents(env, cs)[j]
  {
  }

  /** A store that answers differently for one path changes only the items
      that reference that path; when it fails there, those items become
      `image_error` items carrying its message, and every other item is
      resolved as before. */
  lemma StoreFailureIsContained(env: Env, getObject: StoragePath -> Result<string>,
                                 p: StoragePath, cs: seq<Content>)
    requires forall j :: 0 <= j < |cs| ==> Dispatchable(cs[j])
    requires forall q :: q != p ==> getObject(q) == env.getObject(q)
    ensures var rs, rs' := ResolveContents(env, cs), ResolveContents(env.(getObject := getObject), cs);
            |rs'| == |rs| == |cs|
            && (forall j :: 0 <= j < |cs| && !(cs[j].Image? && cs[j].storagePath == p) ==> rs'[j] == rs[j])
            && (getObject(p).Err? ==>
                  forall j :: 0 <= j < |cs| && cs[j].Image? && cs[j].storagePath == p ==>
                    rs'[j] == ImageError(getObject(p).message))
  {
  }

  /** On a message without `{type, text}` items the two message paths agree:
      the model-inference path differs from the `Input` path only by its
      text rewrite, and images are resolved identically on both. */
  lemma MessagePathsAgree(env: Env, m: Message)
    requires IsModelInferenceMessage(m)
    requires forall j :: 0 <= j < |m.content| ==> !m.content[j].TextField?
    ensures ResolveModelInferenceMessage(env, m) == ResolveMessage(env, m)
  {
  }

  /** Hence the as-written and the corrected model-inference entry points
      agree exactly on inputs without `{type, text}` items. */
  lemma {:induction false} EntryPointsAgreeWithoutTextField(env: Env, input: Input)
    requires IsModelInferenceInput(input) && !HasTextField(input)
    ensures ResolveModelInferenceInputIntended(env, input) == ResolveModelInferenceInput(env, input)
  {
    var r, r' := ResolveModelInferenceInputIntended(env, input), ResolveModelInferenceInput(env, input);
    forall i | 0 <= i < |input.messages| ensures r.messages[i] == r'.messages[i] {
      MessagePathsAgree(env, input.messages[i]);
    }
  }

  /** Given an object store holding `{"data":"QUJD"}` at `p`, a PNG item
      resolves to the data URL of that payload; a store failure at `p` gives
      an `image_error` with the store's message, and a payload that does not
      parse gives an `image_error` with the parser's message. */
  lemma ImageExamples(env: Env, p: StoragePath)
    ensures var item := Image(ImageField(None, "image/png"), p);
            (env.getObject(p).Ok? && env.parseJson(env.getObject(p).value) == Ok(Json("QUJD")) ==>
               ResolveContent(env, item) == Image(ImageField(Some("data:image/png;base64,QUJD"), "image/png"), p))
            && (env.getObject(p) == Err("not found") ==> ResolveContent(env, item) == ImageError("not found"))
            && (env.getObject(p).Ok? && env.parseJson(env.getObject(p).value).Err? ==>
                  ResolveContent(env, item) == ImageError(env.parseJson(env.getObject(p).value).message))
  {
    assert DataUrl("image/png", "QUJD") == "data:image/png;base64,QUJD";
  }
}
