/** Unwrapping of the language model's reply before `json.loads`: the reply is
    stripped, a leading "```json" (7 characters) or "```" (3 characters) is cut
    off together with the last 3 characters, whatever they are, and the rest is
    stripped again. The Gemini parsers of all three apps and the OpenAI parser
    of gradio_app.py recognise both openings; the OpenAI parsers of
    gradio_v2_app.py and gradio_advanced_app.py only recognise "```json". */
module FenceStrip {
  import opened Base
  import opened Text

  const JsonFence: string := "```json"
  const Fence: string := "```"

  /** The reply text handed to `json.loads`; `bare` says whether a bare
      "```" opening is recognised too. */
  function StripFence(reply: string, bare: bool): (text: string)
  {
    var t := PyStrip(reply);
    if StartsWith(t, JsonFence) then PyStrip(PySlice(t, 7, -3))
    else if bare && StartsWith(t, Fence) then PyStrip(PySlice(t, 3, -3))
    else t
  }

  /** A reply that starts and ends with a backtick is not changed by the first strip. */
  lemma BacktickEdges(s: string)
    requires |s| >= 1 && s[0] == '`' && s[|s| - 1] == '`'
    ensures PyStrip(s) == s
  {
    StripUnchanged(s, IsPySpace);
  }

  /** Wrapping any body in a "```json" fence and unwrapping it gives the body, stripped. */
  lemma FencedJsonRoundTrip(body: string, bare: bool)
    ensures StripFence(JsonFence + body + Fence, bare) == PyStrip(body)
  {
    var w := JsonFence + body + Fence;
    BacktickEdges(w);
    assert w[..7] == JsonFence;
    assert w[7..|w| - 3] == body;
    if body == [] {
      assert PySlice(w, 7, -3) == "";
    }
  }

  /** "```" + body + "```" starts with "```json" only if the body starts with "json". */
  lemma BareFenceNotJson(body: string)
    requires !StartsWith(body, "json")
    ensures !StartsWith(Fence + body + Fence, JsonFence)
  {
    var w := Fence + body + Fence;
    if |body| >= 4 {
      assert w[3..7] == body[..4];
      assert w[..7][3..7] == w[3..7];
      assert JsonFence[3..7] == "json";
    } else if |body| > 0 {
      var k := 3 + |body|;
      assert w[k] == '`';
      assert w[..7][k] == w[k];
      assert JsonFence[k] != '`';
    }
  }

  /** With bare fences recognised, a bare fence around a body that does not itself
      start with "json" unwraps to the body, stripped. */
  lemma FencedBareRoundTrip(body: string)
    requires !StartsWith(body, "json")
    ensures StripFence(Fence + body + Fence, true) == PyStrip(body)
  {
    var w := Fence + body + Fence;
    BacktickEdges(w);
    BareFenceNotJson(body);
    assert w[..3] == Fence;
    assert w[3..|w| - 3] == body;
    if body == [] {
      assert PySlice(w, 3, -3) == "";
    }
  }

  /** Without bare fences (the OpenAI parsers of the v2 and advanced apps), such a
      reply reaches `json.loads` with its fences still on. */
  lemma BareFenceKeptWithoutBare(body: string)
    requires !StartsWith(body, "json")
    ensures StripFence(Fence + body + Fence, false) == Fence + body + Fence
  {
    var w := Fence + body + Fence;
    BacktickEdges(w);
    BareFenceNotJson(body);
  }

  /** A "```json" opening is a "```" opening. */
  lemma JsonFenceIsFence(t: string)
    ensures StartsWith(t, JsonFence) ==> StartsWith(t, Fence)
  {
    if StartsWith(t, JsonFence) {
      assert t[..3] == t[..7][..3] == JsonFence[..3];
    }
  }

  /** A reply that does not open with a fence is only stripped. */
  lemma UnfencedOnlyStripped(reply: string, bare: bool)
    requires !StartsWith(PyStrip(reply), Fence)
    ensures StripFence(reply, bare) == PyStrip(reply)
  {
    JsonFenceIsFence(PyStrip(reply));
  }

  /** Python's `t[7:-3]` is empty when the stripped reply has at most 10
      characters, so a short "```json" reply leaves nothing to parse. */
  lemma ShortJsonFenceEmpty(reply: string, bare: bool)
    requires StartsWith(PyStrip(reply), JsonFence) && |PyStrip(reply)| <= 10
    ensures StripFence(reply, bare) == ""
  {
    var t := PyStrip(reply);
    assert PySlice(t, 7, -3) == "";
    StripUnchanged("", IsPySpace);
  }

  /** The last three characters are dropped whether or not they close the fence:
      a reply with no closing fence loses the end of its body. */
  lemma UnclosedJsonFenceLosesTail(body: string, bare: bool)
    requires |body| >= 3 && !IsPySpace(body[|body| - 1])
    ensures StripFence(JsonFence + body, bare) == PyStrip(body[..|body| - 3])
  {
    var w := JsonFence + body;
    StripUnchanged(w, IsPySpace);
    assert w[..7] == JsonFence;
    assert w[7..|w| - 3] == body[..|body| - 3];
    if |body| == 3 {
      assert PySlice(w, 7, -3) == "";
      assert body[..0] == [];
    }
  }

  /** Whatever the reply, the text handed on neither starts nor ends with whitespace. */
  lemma ResultIsStripped(reply: string, bare: bool)
    ensures var text := StripFence(reply, bare);
      text == [] || (!IsPySpace(text[0]) && !IsPySpace(text[|text| - 1]))
  {
    var t := PyStrip(reply);
    if StartsWith(t, JsonFence) {
      StripShape(PySlice(t, 7, -3), IsPySpace);
    } else if bare && StartsWith(t, Fence) {
      StripShape(PySlice(t, 3, -3), IsPySpace);
    } else {
      StripShape(reply, IsPySpace);
    }
  }

  /** The same steps as the parsers write them, reassigning `text`. */
  method Unwrap(reply: string, bare: bool) returns (text: string)
    ensures text == StripFence(reply, bare)
  {
    text := PyStrip(reply);
    if StartsWith(text, JsonFence) {
      text := PyStrip(PySlice(text, 7, -3));
    } else if bare && StartsWith(text, Fence) {
      text := PyStrip(PySlice(text, 3, -3));
    }
  }

  /** What a call that can raise gives back: its value, or the message of the
      exception (`str(e)`). */
  datatype Raised<T> = Returned(value: T) | Raised(message: string)

  /** The common shape of `parse_with_gemini` and `parse_with_openai`: the
      vendor reply (or the exception the vendor call raised) is unwrapped and
      handed to `loads` (`json.loads`); any exception becomes the pair
      `(None, provider + " 解析失敗: " + message)`, success the pair
      `(data, None)`. */
  method ParseReply<T>(provider: string, reply: Raised<string>, bare: bool, loads: string -> Raised<T>)
    returns (data: Option<T>, error: Option<string>)
    ensures data.Some? <==> error.None?
    ensures reply.Raised? ==> error == Some(provider + " 解析失敗: " + reply.message)
    ensures reply.Returned? ==> match loads(StripFence(reply.value, bare))
      case Returned(v) => data == Some(v)
      case Raised(m) => error == Some(provider + " 解析失敗: " + m)
  {
    if reply.Raised? {
      return None, Some(provider + " 解析失敗: " + reply.message);
    }
    var text := Unwrap(reply.value, bare);
    var loaded := loads(text);
    match loaded
    case Returned(v) =>
      data, error := Some(v), None;
    case Raised(m) =>
      data, error := None, Some(provider + " 解析失敗: " + m);
  }

  /** A reply fenced as "```json" whose stripped body decodes is parsed to that value. */
  lemma FencedReplyParses<T>(body: string, bare: bool, loads: string -> Raised<T>, v: T)
    requires loads(PyStrip(body)) == Returned(v)
    ensures loads(StripFence(JsonFence + body + Fence, bare)) == Returned(v)
  {
    FencedJsonRoundTrip(body, bare);
  }
}
