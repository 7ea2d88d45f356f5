/** The normalisation block of `chat_completions`: it turns the client's JSON
    body into the request sent upstream. A `prompt`/`input` body gains a single
    user message, list-valued message content is flattened to one string, the
    model is resolved through the alias table and streaming is switched off. */
module Normalizer {
  import opened Text
  import opened Json
  import Aliases

  /** The bodies `request.get_json(silent=True) or {}` can hand on without the
      later `in` and `.get` calls raising: no body, a falsy one, or an object. */
  predicate BodyShaped(body: Option<Json>)
  {
    body.None? || !Truthy(body.value) || body.value.JObj?
  }

  /** `request.get_json(silent=True) or {}`: the request is the body's
      object, the empty one included; no body, or any other value (which is
      then falsy), gives the empty request. */
  function RequestData(body: Option<Json>): (r: Fields)
    requires BodyShaped(body)
    ensures body.Some? && body.value.JObj? ==> r == body.value.fields
    ensures !(body.Some? && body.value.JObj?) ==> r == []
  {
    if body.Some? && Truthy(body.value) then body.value.fields else []
  }

  // ---- prompt/input -> messages

  /** `data.get("prompt") or data.get("input")`: the first truthy one of the
      two, and falsy only when both are. */
  function PromptValue(data: Fields): (r: Json)
    ensures Truthy(r) <==> Truthy(GetOr(data, "prompt", JNull)) || Truthy(GetOr(data, "input", JNull))
    ensures Truthy(GetOr(data, "prompt", JNull)) ==> r == GetOr(data, "prompt", JNull)
    ensures Truthy(r) ==> r == GetOr(data, "prompt", JNull) || r == GetOr(data, "input", JNull)
  {
    var p := GetOr(data, "prompt", JNull);
    if Truthy(p) then p else GetOr(data, "input", JNull)
  }

  /** The `str()` of every item, in order: one string per item, a string item
      being itself. */
  function ItemStrings(items: seq<Json>): (r: seq<string>)
    ensures |r| == |items|
    ensures forall n :: 0 <= n < |items| && items[n].JStr? ==> r[n] == items[n].s
  {
    seq(|items|, n requires 0 <= n < |items| => Str(items[n]))
  }

  /** A list prompt becomes `" ".join(map(str, txt))`, a string: empty for an
      empty list, and truthy once there are two items or more (a space
      separates them). Any other value stays. */
  function JoinedText(v: Json): (r: Json)
    ensures !r.JList?
    ensures v.JList? ==> r.JStr? && (v.items == [] ==> r.s == "") && (|v.items| >= 2 ==> Truthy(r))
    ensures !v.JList? ==> r == v
  {
    if v.JList? then JStr(Join(ItemStrings(v.items), " ")) else v
  }

  /** `{"role": "user", "content": text}`. */
  function UserMessage(text: string): Json
  {
    JObj([("role", JStr("user")), ("content", JStr(text))])
  }

  /** The text the prompt branch would put into the new message. */
  function PromptText(data: Fields): Json
  {
    JoinedText(PromptValue(data))
  }

  /** Lines 125-130: only a body without `messages` is touched, and only a
      truthy prompt text adds the key. Nothing else changes. */
  function WithPromptMessages(data: Fields): (r: Fields)
    ensures Has(data, "messages") ==> r == data
    ensures Has(r, "messages") <==> Has(data, "messages") || Truthy(PromptText(data))
    ensures forall k :: k != "messages" ==> Get(r, k) == Get(data, k)
    ensures MessagesOk(data) ==> MessagesOk(r)
  {
    if Has(data, "messages") then data
    else
      var txt := PromptText(data);
      if Truthy(txt) then Set(data, "messages", JList([UserMessage(Str(txt))])) else data
  }

  // ---- list-valued content -> one string

  /** The parts the flattening loop handles without raising: a dict part's
      `"text"`, when present, is a string or `None` (anything else would make
      `" ".join` fail). */
  predicate PartShaped(part: Json)
  {
    part.JObj? ==>
      var t := Get(part.fields, "text");
      t.None? || t.value.JNull? || t.value.JStr?
  }

  /** What one part contributes: a dict its `"text"` (`""` when missing,
      nothing when `None`), any other value its `str()`. */
  function PartText(part: Json): (r: Option<string>)
    requires PartShaped(part)
    ensures r.None? <==> part.JObj? && Get(part.fields, "text") == Some(JNull)
    ensures part.JStr? ==> r == Some(part.s)
    ensures part.JObj? && !Has(part.fields, "text") ==> r == Some("")
  {
    if part.JObj? then
      match Get(part.fields, "text")
      case None => Some("")
      case Some(t) => if t.JStr? then Some(t.s) else None
    else Some(Str(part))
  }

  /** The texts of the first `n` parts that survive `p is not None`, in part
      order. */
  function PartTexts(parts: seq<Json>, n: nat): (r: seq<string>)
    requires n <= |parts| && forall p <- parts :: PartShaped(p)
    ensures |r| <= n
  {
    if n == 0 then []
    else
      match PartText(parts[n - 1])
      case None => PartTexts(parts, n - 1)
      case Some(t) => PartTexts(parts, n - 1) + [t]
  }

  /** Only `None` texts are dropped: when every part yields a text, there
      are as many texts as parts. */
  lemma {:induction false} PartTextsKeepAll(parts: seq<Json>, n: nat)
    requires n <= |parts| && forall p <- parts :: PartShaped(p)
    requires forall j :: 0 <= j < n ==> PartText(parts[j]).Some?
    ensures |PartTexts(parts, n)| == n
  {
    if n > 0 {
      PartTextsKeepAll(parts, n - 1);
    }
  }

  /** Line 140: the surviving texts joined by single spaces. */
  function FlatContent(parts: seq<Json>): string
    requires forall p <- parts :: PartShaped(p)
  {
    Join(PartTexts(parts, |parts|), " ")
  }

  /** A message the flattening loop handles: a dict whose list content (if
      any) holds only shaped parts. */
  predicate MessageShaped(msg: Json)
  {
    msg.JObj? &&
    var c := GetOr(msg.fields, "content", JStr(""));
    c.JList? ==> forall p <- c.items :: PartShaped(p)
  }

  /** The `messages` values `for msg in data["messages"]` walks without
      raising: a list of shaped messages, or an empty string or dict. */
  predicate MessagesShaped(m: Json)
  {
    (m.JList? && forall x <- m.items :: MessageShaped(x)) || m == JStr("") || m == JObj([])
  }

  /** A message whose `content` is a list of parts. */
  predicate ListContent(msg: Json)
  {
    msg.JObj? && GetOr(msg.fields, "content", JStr("")).JList?
  }

  /** Two messages that agree on every field but `content`. */
  ghost predicate SameBesideContent(a: Json, b: Json)
  {
    a.JObj? && b.JObj? && forall k :: k != "content" ==> Get(a.fields, k) == Get(b.fields, k)
  }

  /** Lines 135-140 for one message: list content becomes one string; any
      other content and every other field stay as they were. */
  function FlattenMessage(msg: Json): (r: Json)
    requires MessageShaped(msg)
    ensures r.JObj? && !GetOr(r.fields, "content", JStr("")).JList?
    ensures SameBesideContent(r, msg)
    ensures GetOr(msg.fields, "content", JStr("")).JList? ==>
              Get(r.fields, "content") == Some(JStr(FlatContent(GetOr(msg.fields, "content", JStr("")).items)))
    ensures !GetOr(msg.fields, "content", JStr("")).JList? ==> r == msg
  {
    var c := GetOr(msg.fields, "content", JStr(""));
    if c.JList? then JObj(Set(msg.fields, "content", JStr(FlatContent(c.items)))) else msg
  }

  /** Every message flattened in its own slot: no list content is left,
      every other field of every message stays, and a message without list
      content is kept as it is. */
  function FlattenMessages(msgs: seq<Json>): (r: seq<Json>)
    requires forall i :: 0 <= i < |msgs| ==> MessageShaped(msgs[i])
    ensures |r| == |msgs|
    ensures forall i :: 0 <= i < |msgs| ==> r[i].JObj?
    ensures forall i :: 0 <= i < |msgs| ==> !ListContent(r[i])
    ensures forall i :: 0 <= i < |msgs| ==> SameBesideContent(r[i], msgs[i])
    ensures forall i :: 0 <= i < |msgs| && !ListContent(msgs[i]) ==> r[i] == msgs[i]
  {
    seq(|msgs|, i requires 0 <= i < |msgs| => FlattenMessage(msgs[i]))
  }

  /** A request whose `messages`, when present, can be walked by line 134. */
  predicate MessagesOk(data: Fields)
  {
    Has(data, "messages") ==> MessagesShaped(GetOr(data, "messages", JNull))
  }

  /** Lines 133-140 on the whole request: only a list of messages changes. */
  function WithFlatContent(data: Fields): (r: Fields)
    requires MessagesOk(data)
    ensures forall k :: k != "messages" ==> Get(r, k) == Get(data, k)
    ensures Has(r, "messages") <==> Has(data, "messages")
    ensures GetOr(data, "messages", JNull).JList? ==>
              Get(r, "messages") == Some(JList(FlattenMessages(GetOr(data, "messages", JNull).items)))
    ensures !GetOr(data, "messages", JNull).JList? ==> r == data
  {
    var m := GetOr(data, "messages", JNull);
    if m.JList? then Set(data, "messages", JList(FlattenMessages(m.items))) else data
  }

  // ---- model and stream

  /** `data.get("model") or DEFAULT_MODEL`: the client's model when truthy;
      truthy whenever `DEFAULT_MODEL` is not empty, and never a list or dict
      for a request the alias lookup can hash. */
  function RequestedModel(data: Fields, defaultModel: string): (r: Json)
    ensures Truthy(GetOr(data, "model", JNull)) ==> r == GetOr(data, "model", JNull)
    ensures defaultModel != "" ==> Truthy(r)
    ensures ModelOk(data) ==> !r.JList? && !r.JObj?
  {
    var m := GetOr(data, "model", JNull);
    if Truthy(m) then m else JStr(defaultModel)
  }

  /** A truthy list or dict model cannot be looked up in `MODEL_ALIASES`
      (it is unhashable), so the source raises on it. */
  predicate ModelOk(data: Fields)
  {
    var m := GetOr(data, "model", JNull);
    Truthy(m) ==> !m.JList? && !m.JObj?
  }

  /** Everything the normalisation block needs of the decoded body. */
  predicate Shaped(data: Fields)
  {
    MessagesOk(data) && ModelOk(data)
  }

  /** `model_slug` of line 144. */
  function Slug(data: Fields, defaultModel: string): (r: Json)
    ensures Aliases.Canonical(r)
    ensures defaultModel != "" ==> Truthy(r)
  {
    Aliases.Resolve(RequestedModel(data, defaultModel))
  }

  /** Lines 124-140: the request with its messages built and flattened. */
  function Prepared(data: Fields): (r: Fields)
    requires MessagesOk(data)
    ensures forall k :: k != "messages" ==> Get(r, k) == Get(data, k)
    ensures Has(r, "messages") <==> Has(data, "messages") || Truthy(PromptText(data))
  {
    WithFlatContent(WithPromptMessages(data))
  }

  /** The messages part of the block does not touch the model. */
  lemma PreparedKeepsModel(data: Fields)
    requires MessagesOk(data)
    ensures GetOr(Prepared(data), "model", JNull) == GetOr(data, "model", JNull)
  {
    assert Get(Prepared(data), "model") == Get(data, "model");
  }

  /** The whole block, lines 124-146, on a decoded body. */
  function Normalized(data: Fields, defaultModel: string): (r: Fields)
    requires Shaped(data)
    ensures Get(r, "stream") == Some(JBool(false))
    ensures Get(r, "model") == Some(Slug(data, defaultModel))
    ensures Get(r, "messages") == Get(Prepared(data), "messages")
    ensures forall k :: k != "messages" && k != "model" && k != "stream" ==> Get(r, k) == Get(data, k)
    ensures Has(r, "messages") <==> Has(data, "messages") || Truthy(PromptText(data))
  {
    Set(Set(Prepared(data), "model", Slug(data, defaultModel)), "stream", JBool(false))
  }

  // ---- the block as the source runs it: in-place updates and loops

  /** Lines 137-140: collect each part's text, then join the ones that are
      not `None` with single spaces. */
  method FlattenParts(parts: seq<Json>) returns (content: string)
    requires forall p <- parts :: PartShaped(p)
    ensures content == FlatContent(parts)
  {
    var texts: seq<string> := [];
    for i := 0 to |parts|
      invariant texts == PartTexts(parts, i)
    {
      var part := parts[i];
      var text := PartText(part);
      if text.Some? {
        texts := texts + [text.value];
      }
    }
    content := Join(texts, " ");
  }

  /** Lines 135-140 for one message: list content is replaced by its
      flattened text. */
  method FlattenOne(msg: Json) returns (r: Json)
    requires MessageShaped(msg)
    ensures r == FlattenMessage(msg)
  {
    r := msg;
    var c := GetOr(msg.fields, "content", JStr(""));
    if c.JList? {
      var flat := FlattenParts(c.items);
      r := JObj(Set(msg.fields, "content", JStr(flat)));
    }
  }

  /** Lines 134-140: each message of the list is rewritten in its slot. */
  method FlattenAll(msgs: seq<Json>) returns (out: seq<Json>)
    requires forall m <- msgs :: MessageShaped(m)
    ensures out == FlattenMessages(msgs)
  {
    out := msgs;
    for i := 0 to |msgs|
      invariant |out| == |msgs|
      invariant forall j :: 0 <= j < i ==> out[j] == FlattenMessage(msgs[j])
      invariant forall j :: i <= j < |msgs| ==> out[j] == msgs[j]
    {
      assert msgs[i] in msgs;
      var flat := FlattenOne(out[i]);
      out := out[i := flat];
    }
  }

  /** Lines 125-130: a body without `messages` gets one from its prompt. */
  method AddPromptMessages(data: Fields) returns (r: Fields)
    ensures r == WithPromptMessages(data)
  {
    r := data;
    if !Has(r, "messages") {
      var txt := GetOr(r, "prompt", JNull);
      if !Truthy(txt) {
        txt := GetOr(r, "input", JNull);
      }
      if txt.JList? {
        txt := JStr(Join(ItemStrings(txt.items), " "));
      }
      if Truthy(txt) {
        r := Set(r, "messages", JList([UserMessage(Str(txt))]));
      }
    }
  }

  /** Lines 133-140 on the request: a list of messages is flattened in place. */
  method FlattenContent(data: Fields) returns (r: Fields)
    requires MessagesOk(data)
    ensures r == WithFlatContent(data)
  {
    r := data;
    if Has(r, "messages") {
      var m := GetOr(r, "messages", JNull);
      if m.JList? {
        var flat := FlattenAll(m.items);
        r := Set(r, "messages", JList(flat));
      }
    }
  }

  /** Lines 119-146: decode, add prompt messages, flatten content, resolve the
      model and switch off streaming, updating the request as the source does.
      Also yields `model_slug`, which the fallback loop starts from. */
  method Normalize(body: Option<Json>, defaultModel: string) returns (data: Fields, slug: Json)
    requires BodyShaped(body) && Shaped(RequestData(body))
    ensures data == Normalized(RequestData(body), defaultModel)
    ensures slug == Slug(RequestData(body), defaultModel)
  {
    if body.Some? && Truthy(body.value) {
      data := body.value.fields;
    } else {
      data := [];
    }
    ghost var original := data;
    data := AddPromptMessages(data);
    data := FlattenContent(data);
    assert data == Prepared(original);
    PreparedKeepsModel(original);
    var requested := GetOr(data, "model", JNull);
    if !Truthy(requested) {
      requested := JStr(defaultModel);
    }
    slug := Aliases.Resolve(requested);
    data := Set(data, "model", slug);
    data := Set(data, "stream", JBool(false));
  }

  // ---- properties of the block

  /** A body without `messages` whose prompt text is truthy leaves with exactly
      one message: role `"user"`, content the prompt's string form. */
  lemma PromptBecomesOneUserMessage(data: Fields, defaultModel: string)
    requires Shaped(data)
    requires !Has(data, "messages") && Truthy(PromptText(data))
    ensures Get(Normalized(data, defaultModel), "messages") == Some(JList([UserMessage(Str(PromptText(data)))]))
    ensures Get(UserMessage(Str(PromptText(data))).fields, "role") == Some(JStr("user"))
  {
    var msg := UserMessage(Str(PromptText(data)));
    var d1 := WithPromptMessages(data);
    assert GetOr(d1, "messages", JNull) == JList([msg]);
    assert Get(msg.fields, "content") == Some(JStr(Str(PromptText(data))));
    assert FlattenMessage(msg) == msg;
    assert FlattenMessages([msg]) == [msg];
  }

  /** Without `messages` and with a falsy prompt and input no message is made
      up: there is no default greeting. */
  lemma NoPromptNoMessages(data: Fields, defaultModel: string)
    requires Shaped(data)
    requires !Has(data, "messages") && !Truthy(GetOr(data, "prompt", JNull)) && !Truthy(GetOr(data, "input", JNull))
    ensures !Has(Normalized(data, defaultModel), "messages")
  {
    assert !Truthy(PromptText(data));
  }

  /** A list prompt of space-free strings is joined so that splitting the
      message content on spaces gives the items back. */
  lemma PromptListRoundTrip(data: Fields, defaultModel: string, words: seq<string>)
    requires Shaped(data) && !Has(data, "messages")
    requires |words| >= 1 && words != [""] && forall w <- words :: ' ' !in w
    requires GetOr(data, "prompt", JNull) == JList(seq(|words|, n requires 0 <= n < |words| => JStr(words[n])))
    ensures Truthy(PromptText(data))
    ensures Split(Str(PromptText(data)), ' ') == words
  {
    var items := GetOr(data, "prompt", JNull).items;
    assert ItemStrings(items) == words;
    SplitJoin(words, ' ');
    if |words| == 1 {
      assert words != [""] && words == [words[0]];
      assert words[0] != "";
    }
  }

  /** Parts that are all strings contribute exactly those strings. */
  lemma {:induction false} StringPartTexts(parts: seq<Json>, n: nat)
    requires n <= |parts| && forall p <- parts :: p.JStr?
    ensures PartTexts(parts, n) == seq(n, j requires 0 <= j < n => parts[j].s)
  {
    if n > 0 {
      StringPartTexts(parts, n - 1);
    }
  }

  /** List content made of space-free strings is joined so that splitting the
      flattened content on spaces gives the parts back. */
  lemma FlatContentRoundTrip(parts: seq<Json>)
    requires |parts| >= 1 && forall p <- parts :: p.JStr? && ' ' !in p.s
    ensures Split(FlatContent(parts), ' ') == seq(|parts|, n requires 0 <= n < |parts| => parts[n].s)
  {
    var words := seq(|parts|, n requires 0 <= n < |parts| => parts[n].s);
    StringPartTexts(parts, |parts|);
    assert forall w <- words :: ' ' !in w;
    SplitJoin(words, ' ');
  }

  /** `[{"text": "a"}, "b"]` flattens to `"a b"`, and a dict part whose text is
      `None` is dropped rather than printed. */
  lemma FlatContentExample()
    ensures FlatContent([JObj([("text", JStr("a"))]), JStr("b")]) == "a b"
    ensures FlatContent([JObj([("text", JStr("a"))]), JObj([("text", JNull)]), JStr("b")]) == "a b"
    ensures FlatContent([JObj([]), JStr("b")]) == " b"
  {
    var a := JObj([("text", JStr("a"))]);
    var b := JStr("b");
    var n := JObj([("text", JNull)]);
    assert PartTexts([a, b], 1) == ["a"];
    assert PartTexts([a, b], 2) == ["a", "b"];
    assert PartTexts([a, n, b], 1) == ["a"];
    assert PartTexts([a, n, b], 2) == ["a"];
    assert PartTexts([a, n, b], 3) == ["a", "b"];
    assert PartTexts([JObj([]), b], 1) == [""];
    assert PartTexts([JObj([]), b], 2) == ["", "b"];
  }

  /** Flattening a flattened message changes nothing. */
  lemma FlattenMessageIdempotent(msg: Json)
    requires MessageShaped(msg)
    ensures MessageShaped(FlattenMessage(msg))
    ensures FlattenMessage(FlattenMessage(msg)) == FlattenMessage(msg)
    ensures !GetOr(FlattenMessage(msg).fields, "content", JStr("")).JList?
  {
  }

  /** Flattening a flattened message list changes nothing. */
  lemma FlattenMessagesIdempotent(msgs: seq<Json>)
    requires forall m <- msgs :: MessageShaped(m)
    ensures forall m <- FlattenMessages(msgs) :: MessageShaped(m) && !GetOr(m.fields, "content", JStr("")).JList?
    ensures FlattenMessages(FlattenMessages(msgs)) == FlattenMessages(msgs)
  {
    var flat := FlattenMessages(msgs);
    forall i | 0 <= i < |msgs|
      ensures MessageShaped(flat[i]) && FlattenMessage(flat[i]) == flat[i]
      ensures !GetOr(flat[i].fields, "content", JStr("")).JList?
    {
      assert msgs[i] in msgs;
      FlattenMessageIdempotent(msgs[i]);
    }
  }

  /** The messages of the prepared request: a flattened list, or the
      untouched empty string or dict. */
  lemma PreparedMessages(data: Fields)
    requires MessagesOk(data)
    ensures MessagesOk(Prepared(data))
    ensures var m := GetOr(Prepared(data), "messages", JNull);
            m.JList? ==> forall x <- m.items :: MessageShaped(x) && !GetOr(x.fields, "content", JStr("")).JList?
    ensures WithFlatContent(Prepared(data)) == Prepared(data)
  {
    var d1 := WithPromptMessages(data);
    assert MessagesOk(d1);
    var m1 := GetOr(d1, "messages", JNull);
    var d2 := Prepared(data);
    if m1.JList? {
      FlattenMessagesIdempotent(m1.items);
      var flat := FlattenMessages(m1.items);
      assert GetOr(d2, "messages", JNull) == JList(flat);
      SetSame(d2, "messages", JList(flat));
    } else {
      assert d2 == d1;
    }
  }

  /** No message of the outbound request still has list content. */
  lemma NoListContentLeft(data: Fields, defaultModel: string)
    requires Shaped(data)
    ensures var m := GetOr(Normalized(data, defaultModel), "messages", JNull);
            m.JList? ==> forall x <- m.items :: x.JObj? && !GetOr(x.fields, "content", JStr("")).JList?
  {
    PreparedMessages(data);
  }

  /** Preparing a prepared request again changes nothing. */
  lemma PreparedIdempotent(data: Fields)
    requires MessagesOk(data)
    ensures MessagesOk(Prepared(data))
    ensures Prepared(Prepared(data)) == Prepared(data)
  {
    var d2 := Prepared(data);
    PreparedMessages(data);
    if !Has(d2, "messages") {
      assert Get(d2, "prompt") == Get(data, "prompt") && Get(d2, "input") == Get(data, "input");
      assert PromptText(d2) == PromptText(data);
    }
    assert WithPromptMessages(d2) == d2;
  }

  /** Normalising the outbound request again changes nothing: the relay's own
      output is already in normal form. */
  lemma NormalizeIdempotent(data: Fields, defaultModel: string)
    requires Shaped(data)
    ensures Shaped(Normalized(data, defaultModel))
    ensures Normalized(Normalized(data, defaultModel), defaultModel) == Normalized(data, defaultModel)
  {
    var d2 := Prepared(data);
    var slug := Slug(data, defaultModel);
    var out := Normalized(data, defaultModel);
    assert out == Set(Set(d2, "model", slug), "stream", JBool(false));
    PreparedMessages(data);
    assert Shaped(out);
    // The model is already the resolved slug, truthy whenever the request
    // had a truthy model.
    var requested := RequestedModel(data, defaultModel);
    Aliases.ResolveIdempotent(requested);
    if Truthy(requested) {
      Aliases.ResolveKeepsTruthy(requested);
    }
    assert Slug(out, defaultModel) == slug;
    // The messages part of the block is a no-op on `out`.
    PreparedIdempotent(data);
    assert MessagesOk(out);
    PreparedOfNormalized(data, defaultModel);
    SetSame(out, "model", slug);
    SetSame(out, "stream", JBool(false));
  }

  /** The prompt step leaves a normalised request unchanged: it either has
      messages already, or its prompt text is as falsy as the original's. */
  lemma PromptStepOfNormalized(data: Fields, defaultModel: string)
    requires Shaped(data)
    ensures WithPromptMessages(Normalized(data, defaultModel)) == Normalized(data, defaultModel)
  {
    var out := Normalized(data, defaultModel);
    assert Get(out, "prompt") == Get(data, "prompt");
    assert Get(out, "input") == Get(data, "input");
    PromptStepKeeps(out, data);
  }

  /** A request with the same prompt and input as one whose prompt text is
      falsy, or that has messages already, gains none. */
  lemma PromptStepKeeps(out: Fields, data: Fields)
    requires Get(out, "prompt") == Get(data, "prompt") && Get(out, "input") == Get(data, "input")
    requires !Has(out, "messages") ==> !Truthy(PromptText(data))
    ensures WithPromptMessages(out) == out
  {
    if !Has(out, "messages") {
      assert PromptText(out) == PromptText(data);
    }
  }

  /** The flattening step leaves a normalised request unchanged: its
      messages are already flat. */
  lemma FlatStepOfNormalized(data: Fields, defaultModel: string)
    requires Shaped(data)
    ensures MessagesOk(Normalized(data, defaultModel))
    ensures WithFlatContent(Normalized(data, defaultModel)) == Normalized(data, defaultModel)
  {
    var out := Normalized(data, defaultModel);
    PreparedMessages(data);
    var m := GetOr(out, "messages", JNull);
    assert m == GetOr(Prepared(data), "messages", JNull);
    if m.JList? {
      FlattenMessagesIdempotent(m.items);
      assert FlattenMessages(m.items) == m.items;
      SetSame(out, "messages", m);
    }
  }

  /** The messages part of the block leaves a normalised request unchanged. */
  lemma PreparedOfNormalized(data: Fields, defaultModel: string)
    requires Shaped(data)
    ensures MessagesOk(Normalized(data, defaultModel))
    ensures Prepared(Normalized(data, defaultModel)) == Normalized(data, defaultModel)
  {
    PromptStepOfNormalized(data, defaultModel);
    FlatStepOfNormalized(data, defaultModel);
  }
}
