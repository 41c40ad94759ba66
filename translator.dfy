/**
 * Text translation with engine fallback (src/core/translator.py): a blank
 * text short-circuits, the target is resolved against a fixed language
 * table, and the engines are tried in order until one answers.
 *
 * The `translators` package is a parameter `call(engine, text, from, to)`
 * giving what `translate_text` returns or raises for that engine.
 */
module Translation {
  import opened Common

  // ---------------------------------------------------------------------
  // Python's `str.strip()`

  /** The characters `str.isspace` accepts, which `strip()` removes. */
  predicate IsSpace(c: char)
  {
    c == ' ' || '\t' <= c <= '\r' || '\U{1C}' <= c <= '\U{1F}' || c == '\U{85}' || c == '\U{A0}' ||
    c == '\U{1680}' || '\U{2000}' <= c <= '\U{200A}' || c == '\U{2028}' || c == '\U{2029}' ||
    c == '\U{202F}' || c == '\U{205F}' || c == '\U{3000}'
  }

  function StripLeft(s: string): (r: string)
    ensures |r| <= |s| && r == s[|s| - |r|..]
    ensures r != [] ==> !IsSpace(r[0])
    ensures forall i :: 0 <= i < |s| - |r| ==> IsSpace(s[i])
  {
    if s != [] && IsSpace(s[0]) then StripLeft(s[1..]) else s
  }

  function StripRight(s: string): (r: string)
    ensures |r| <= |s| && r == s[..|r|]
    ensures r != [] ==> !IsSpace(r[|r| - 1])
    ensures forall i :: |r| <= i < |s| ==> IsSpace(s[i])
  {
    if s != [] && IsSpace(s[|s| - 1]) then StripRight(s[..|s| - 1]) else s
  }

  /** `s.strip()`. */
  function Strip(s: string): string
  {
    StripRight(StripLeft(s))
  }

  predicate Blank(s: string)
  {
    forall i :: 0 <= i < |s| ==> IsSpace(s[i])
  }

  /** `text.strip() == ""` holds exactly for the texts made only of whitespace, the empty one included. */
  lemma {:induction false} StripEmptyIffBlank(s: string)
    ensures Strip(s) == "" <==> Blank(s)
  {
    var l := StripLeft(s);
    if l != [] {
      assert !IsSpace(l[0]);
    }
  }

  // ---------------------------------------------------------------------
  // Language table and engines

  /** `SUPPORTED_LANGUAGES`, in its insertion order: friendly name and code. */
  const Languages: seq<(string, string)> := [
    ("English", "en"), ("Spanish", "es"), ("French", "fr"), ("German", "de"),
    ("Italian", "it"), ("Japanese", "ja"), ("Chinese", "zh")]

  /** `ENGINES`. */
  const Engines: seq<string> := ["google", "bing"]

  /** The code of the first table entry named `name`. */
  function CodeOf(table: seq<(string, string)>, name: string): (r: Option<string>)
    ensures r.Some? <==> exists i :: 0 <= i < |table| && table[i].0 == name
    ensures r.Some? ==> exists i :: 0 <= i < |table| && table[i] == (name, r.value)
  {
    if table == [] then None
    else if table[0].0 == name then Some(table[0].1)
    else
      var r := CodeOf(table[1..], name);
      assert forall i :: 1 <= i < |table| ==> table[i] == table[1..][i - 1];
      r
  }

  predicate IsCode(table: seq<(string, string)>, code: string)
  {
    exists i :: 0 <= i < |table| && table[i].1 == code
  }

  /**
   * The target code for `target_language`: a friendly name maps to its
   * code, a code of the table stands for itself, anything else has none.
   */
  function ResolveTarget(target: string): Option<string>
  {
    var byName := CodeOf(Languages, target);
    if byName.Some? then byName
    else if IsCode(Languages, target) then Some(target)
    else None
  }

  /** What `translate_text` gives back: a string, a detail dict (here, its `str()`), or a raise. */
  datatype EngineReply = Text(text: string) | Detail(rendering: string) | Raised(cause: string)

  /** The returned string for an answer that is not a raise. */
  function Rendered(reply: EngineReply): string
    requires !reply.Raised?
  {
    match reply
    case Text(t) => t
    case Detail(d) => d
  }

  function AllFailedError(lastCause: Option<string>): Error
  {
    Error(TranslatorError, "All translation engines failed: " + (if lastCause.Some? then lastCause.value else "None"))
  }

  function UnsupportedTargetError(target: string): Error
  {
    Error(TranslatorError, "Unsupported target language: " + target)
  }

  /**
   * The fallback loop over `engines`: the first engine that answers gives
   * the result and the engine name; when all raise, the error names the
   * last cause (`lastCause` is the cause carried in from earlier engines).
   */
  function TryEngines(engines: seq<string>, text: string, source: string, code: string,
                      call: (string, string, string, string) -> EngineReply,
                      lastCause: Option<string>): (Result<string, Error>, Option<string>)
  {
    if engines == [] then (Err(AllFailedError(lastCause)), None)
    else
      var reply := call(engines[0], text, source, code);
      if reply.Raised? then TryEngines(engines[1..], text, source, code, call, Some(reply.cause))
      else (Ok(Rendered(reply)), Some(engines[0]))
  }

  /** `translate(text, target_language, source_language)`: the result and the engine that produced it. */
  function TranslateSpec(text: string, target: string, source: string,
                         call: (string, string, string, string) -> EngineReply): (Result<string, Error>, Option<string>)
  {
    if Strip(text) == "" then (Ok(""), None)
    else
      var code := ResolveTarget(target);
      if code.None? then (Err(UnsupportedTargetError(target)), None)
      else TryEngines(Engines, text, source, code.value, call, None)
  }

  // ---------------------------------------------------------------------
  // Properties

  /** A friendly name resolves to its own code and a code to itself; nothing else resolves. */
  lemma {:induction false} ResolveTargetExact(target: string)
    ensures ResolveTarget(target).Some? <==>
      (exists i :: 0 <= i < |Languages| && (Languages[i].0 == target || Languages[i].1 == target))
    ensures forall i :: 0 <= i < |Languages| && Languages[i].0 == target ==> ResolveTarget(target) == Some(Languages[i].1)
    ensures (forall i :: 0 <= i < |Languages| ==> Languages[i].0 != target) && IsCode(Languages, target) ==>
      ResolveTarget(target) == Some(target)
  {
    var byName := CodeOf(Languages, target);
    if byName.Some? {
      var j :| 0 <= j < |Languages| && Languages[j] == (target, byName.value);
      forall i | 0 <= i < |Languages| && Languages[i].0 == target
        ensures Languages[i].1 == byName.value
      {
        NamesDistinct(i, j);
      }
    }
  }

  lemma {:induction false} NamesDistinct(i: int, j: int)
    requires 0 <= i < |Languages| && 0 <= j < |Languages| && Languages[i].0 == Languages[j].0
    ensures i == j
  {
  }

  /** Blank text gives "" before any language check or engine call: the target and the engines do not matter. */
  lemma {:induction false} BlankShortCircuits(text: string, target: string, source: string,
                           call: (string, string, string, string) -> EngineReply)
    requires Blank(text)
    ensures TranslateSpec(text, target, source, call) == (Ok(""), None)
  {
    StripEmptyIffBlank(text);
  }

  /** An unresolvable target raises before any engine is called. */
  lemma {:induction false} UnsupportedTargetRaises(text: string, target: string, source: string,
                                call: (string, string, string, string) -> EngineReply)
    requires !Blank(text) && ResolveTarget(target).None?
    ensures TranslateSpec(text, target, source, call) == (Err(UnsupportedTargetError(target)), None)
  {
    StripEmptyIffBlank(text);
  }

  /**
   * The first engine that answers (all before it raising) gives the result
   * and is recorded; the engines after it are never consulted.
   */
  lemma {:induction false} FirstAnswerWins(engines: seq<string>, text: string, source: string, code: string,
                                           call: (string, string, string, string) -> EngineReply,
                                           lastCause: Option<string>, k: nat)
    requires k < |engines|
    requires forall i :: 0 <= i < k ==> call(engines[i], text, source, code).Raised?
    requires !call(engines[k], text, source, code).Raised?
    ensures TryEngines(engines, text, source, code, call, lastCause) ==
      (Ok(Rendered(call(engines[k], text, source, code))), Some(engines[k]))
    ensures TryEngines(engines, text, source, code, call, lastCause) ==
      TryEngines(engines[..k + 1], text, source, code, call, lastCause)
  {
    if k > 0 {
      var reply := call(engines[0], text, source, code);
      assert reply.Raised?;
      assert engines[1..][..k] == engines[..k + 1][1..];
      FirstAnswerWins(engines[1..], text, source, code, call, Some(reply.cause), k - 1);
    }
  }

  /** When every engine raises, the error carries the last engine's cause and no engine is recorded. */
  lemma {:induction false} AllEnginesFail(engines: seq<string>, text: string, source: string, code: string,
                                          call: (string, string, string, string) -> EngineReply,
                                          lastCause: Option<string>)
    requires engines != []
    requires forall i :: 0 <= i < |engines| ==> call(engines[i], text, source, code).Raised?
    ensures TryEngines(engines, text, source, code, call, lastCause) ==
      (Err(AllFailedError(Some(call(engines[|engines| - 1], text, source, code).cause))), None)
  {
    var reply := call(engines[0], text, source, code);
    if |engines| > 1 {
      AllEnginesFail(engines[1..], text, source, code, call, Some(reply.cause));
    }
  }

  /**
   * With a supported target and non-blank text: google's answer when it
   * answers, else bing's, else the error naming bing's cause.
   */
  lemma {:induction false} GoogleThenBing(text: string, target: string, source: string,
                       call: (string, string, string, string) -> EngineReply)
    requires !Blank(text) && ResolveTarget(target).Some?
    ensures var code := ResolveTarget(target).value;
      var google := call("google", text, source, code);
      var bing := call("bing", text, source, code);
      TranslateSpec(text, target, source, call) ==
        if !google.Raised? then (Ok(Rendered(google)), Some("google"))
        else if !bing.Raised? then (Ok(Rendered(bing)), Some("bing"))
        else (Err(AllFailedError(Some(bing.cause))), None)
  {
    StripEmptyIffBlank(text);
    var code := ResolveTarget(target).value;
    assert TranslateSpec(text, target, source, call) == TryEngines(Engines, text, source, code, call, None);
    var google := call("google", text, source, code);
    var bing := call("bing", text, source, code);
    assert Engines[0] == "google" && Engines[1..] == ["bing"];
    if google.Raised? {
      assert TryEngines(Engines, text, source, code, call, None) ==
        TryEngines(["bing"], text, source, code, call, Some(google.cause));
      assert ["bing"][1..] == [];
      if bing.Raised? {
        assert TryEngines(["bing"], text, source, code, call, Some(google.cause)) ==
          TryEngines([], text, source, code, call, Some(bing.cause));
      }
    }
  }

  /** Every error `translate` raises is a `TranslatorError`. */
  lemma {:induction false} ErrorsAreTyped(text: string, target: string, source: string,
                       call: (string, string, string, string) -> EngineReply)
    ensures TranslateSpec(text, target, source, call).0.Err? ==>
      TranslateSpec(text, target, source, call).0.error.kind == TranslatorError
  {
    var code := ResolveTarget(target);
    if Strip(text) != "" && code.Some? {
      TryEnginesTyped(Engines, text, source, code.value, call, None);
    }
  }

  lemma {:induction false} TryEnginesTyped(engines: seq<string>, text: string, source: string, code: string,
                                           call: (string, string, string, string) -> EngineReply,
                                           lastCause: Option<string>)
    ensures var r := TryEngines(engines, text, source, code, call, lastCause);
      (r.0.Err? ==> r.0.error.kind == TranslatorError && r.1.None?) &&
      (r.0.Ok? ==> r.1.Some? && r.1.value in engines)
  {
    if engines != [] {
      var reply := call(engines[0], text, source, code);
      if reply.Raised? {
        TryEnginesTyped(engines[1..], text, source, code, call, Some(reply.cause));
      }
    }
  }

  // ---------------------------------------------------------------------
  // The class

  class Translator {
    var lastEngine: Option<string>

    /** `Translator()`: no engine used yet. */
    constructor()
      ensures lastEngine.None?
    {
      lastEngine := None;
    }

    /**
     * `translate(text, target_language="English", source_language="pt")`:
     * the engine that answered is recorded; otherwise the record is unchanged.
     */
    method Translate(text: string, call: (string, string, string, string) -> EngineReply,
                     target: string := "English", source: string := "pt") returns (r: Result<string, Error>)
      modifies this
      ensures var (res, used) := TranslateSpec(text, target, source, call);
        r == res && lastEngine == (if used.Some? then used else old(lastEngine))
    {
      if Strip(text) == "" {
        return Ok("");
      }
      var code := ResolveTarget(target);
      if code.None? {
        return Err(UnsupportedTargetError(target));
      }
      var lastCause: Option<string> := None;
      var i := 0;
      while i < |Engines|
        invariant 0 <= i <= |Engines|
        invariant lastEngine == old(lastEngine)
        invariant TryEngines(Engines[i..], text, source, code.value, call, lastCause) ==
          TranslateSpec(text, target, source, call)
      {
        var engine := Engines[i];
        var reply := call(engine, text, source, code.value);
        if !reply.Raised? {
          lastEngine := Some(engine);
          return Ok(Rendered(reply));
        }
        lastCause := Some(reply.cause);
        i := i + 1;
      }
      return Err(AllFailedError(lastCause));
    }

    function GetLastEngine(): (r: Option<string>)
      reads this
      ensures r == lastEngine
    {
      lastEngine
    }

    /** `get_available_languages()`: the friendly names, in table order. */
    static function GetAvailableLanguages(): (names: seq<string>)
      ensures |names| == |Languages|
      ensures forall i :: 0 <= i < |names| ==> names[i] == Languages[i].0
    {
      seq(|Languages|, i requires 0 <= i < |Languages| => Languages[i].0)
    }
  }

  /** The seven names, in order. */
  lemma {:induction false} AvailableLanguages()
    ensures Translator.GetAvailableLanguages() ==
      ["English", "Spanish", "French", "German", "Italian", "Japanese", "Chinese"]
  {
  }
}
