/** The model-rule resolver of the tools crate: it reads an optional
    `model_type` from the checkpoint's `config.json` and picks the tensor-name
    pattern, which is the same for every family. */
module ModelRules {
  import opened Wrappers
  import opened Text
  import opened Json
  import Classify

  /** What reading `config.json` can find: no file, a file that cannot be
      read, text that is not JSON, or a parsed value (an object's keys are
      distinct once parsed). */
  datatype ConfigFile = Missing | ReadFailed | Malformed | Parsed(value: Value)

  datatype ConfigError = ReadError | ParseError

  datatype ModelRules = ModelRules(modelType: Option<string>, layerPattern: string)

  /** `read_model_type`. */
  function ReadModelType(config: ConfigFile): (r: Result<Option<string>, ConfigError>)
    ensures config.Missing? ==> r == Ok(None)
    ensures config.ReadFailed? ==> r == Err(ReadError)
    ensures config.Malformed? ==> r == Err(ParseError)
    ensures forall t :: r == Ok(Some(t)) <==> config.Parsed? && Get(config.value, "model_type") == Some(Str(t))
  {
    match config
    case Missing => Ok(None)
    case ReadFailed => Err(ReadError)
    case Malformed => Err(ParseError)
    case Parsed(v) =>
      match Get(v, "model_type")
      case Some(Str(s)) => Ok(Some(s))
      case _ => Ok(None)
  }

  /** `is_qwen_family`: the ASCII-lowercased type contains "qwen". */
  predicate IsQwenFamily(modelType: string) {
    Contains(AsciiLower(modelType), "qwen")
  }

  predicate EqualIgnoringAsciiCase(c: char, lower: char) {
    c == lower || c as int == lower as int - 32
  }

  /** Reference reading: somewhere in the type, the four letters q, w, e, n
      follow each other, each in either case. */
  predicate HasQwenIgnoringCase(s: string) {
    exists i | 0 <= i <= |s| - 4 :: QwenIgnoringCaseAt(s, i)
  }

  predicate QwenIgnoringCaseAt(s: string, i: int)
    requires 0 <= i <= |s| - 4
  {
    EqualIgnoringAsciiCase(s[i], 'q') && EqualIgnoringAsciiCase(s[i + 1], 'w')
    && EqualIgnoringAsciiCase(s[i + 2], 'e') && EqualIgnoringAsciiCase(s[i + 3], 'n')
  }

  lemma LowerCharIs(c: char, lower: char)
    requires 'a' <= lower <= 'z'
    ensures AsciiLowerChar(c) == lower <==> EqualIgnoringAsciiCase(c, lower)
  {
  }

  lemma FourLetters(w: string)
    requires |w| == 4
    ensures w == "qwen" <==> w[0] == 'q' && w[1] == 'w' && w[2] == 'e' && w[3] == 'n'
  {
    if w[0] == 'q' && w[1] == 'w' && w[2] == 'e' && w[3] == 'n' {
      assert forall j | 0 <= j < 4 :: w[j] == "qwen"[j];
    }
  }

  lemma QwenAt(s: string, i: int)
    requires 0 <= i <= |s| - 4
    ensures OccursAt(AsciiLower(s), "qwen", i) <==> QwenIgnoringCaseAt(s, i)
  {
    var l := AsciiLower(s);
    var w := l[i..i + 4];
    FourLetters(w);
    assert w[0] == AsciiLowerChar(s[i]);
    assert w[1] == AsciiLowerChar(s[i + 1]);
    assert w[2] == AsciiLowerChar(s[i + 2]);
    assert w[3] == AsciiLowerChar(s[i + 3]);
    LowerCharIs(s[i], 'q');
    LowerCharIs(s[i + 1], 'w');
    LowerCharIs(s[i + 2], 'e');
    LowerCharIs(s[i + 3], 'n');
  }

  /** The lowercase-contains test is a case-insensitive search for "qwen". */
  lemma IsQwenFamilyIff(s: string)
    ensures IsQwenFamily(s) <==> HasQwenIgnoringCase(s)
  {
    if IsQwenFamily(s) {
      var i :| 0 <= i <= |s| - 4 && OccursAt(AsciiLower(s), "qwen", i);
      QwenAt(s, i);
    }
    if HasQwenIgnoringCase(s) {
      var i :| 0 <= i <= |s| - 4 && QwenIgnoringCaseAt(s, i);
      QwenAt(s, i);
    }
  }

  /** `rules_from_input_dir`: an absent type counts as Qwen; the Qwen rule
      and the fallback for other families are the same pattern. */
  function RulesFromInputDir(config: ConfigFile): (r: Result<ModelRules, ConfigError>)
    ensures r.Ok? <==> ReadModelType(config).Ok?
    ensures r.Ok? ==> r.value.modelType == ReadModelType(config).value
    ensures r.Err? ==> r.error == ReadModelType(config).error
  {
    var modelType :- ReadModelType(config);
    var qwen := if modelType.Some? then IsQwenFamily(modelType.value) else true;
    var pattern := if qwen then Classify.LayerPattern else Classify.LayerPattern;
    Ok(ModelRules(modelType, pattern))
  }

  /** Whatever the configuration says, the chosen pattern is the anchored
      layer pattern. */
  lemma RulesPatternIndependent(c1: ConfigFile, c2: ConfigFile)
    requires RulesFromInputDir(c1).Ok? && RulesFromInputDir(c2).Ok?
    ensures RulesFromInputDir(c1).value.layerPattern == RulesFromInputDir(c2).value.layerPattern == Classify.LayerPattern
  {
  }

  /** A missing configuration is not an error and leaves the type unknown. */
  lemma MissingConfigIsQwen()
    ensures RulesFromInputDir(Missing) == Ok(ModelRules(None, Classify.LayerPattern))
  {
  }
}
