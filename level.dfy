/**
 * The difficulty level: the saved level read back from secure storage, and
 * the level taken from a route parameter.
 */
module Levels {
  import opened Wrappers
  import opened JsText

  datatype Level = L1 | L2 | L3

  function Name(l: Level): string {
    match l
    case L1 => "L1"
    case L2 => "L2"
    case L3 => "L3"
  }

  const DefaultLevel: Level := L2
  const LevelKey: string := "brickers_level"

  /** A level name, compared exactly. */
  predicate IsLevelName(s: string) {
    s == "L1" || s == "L2" || s == "L3"
  }

  /** The level with the given name. */
  function FromName(s: string): (l: Level)
    requires IsLevelName(s)
    ensures Name(l) == s
  {
    if s == "L1" then L1 else if s == "L2" then L2 else L3
  }

  /**
   * `getSavedLevel`, given what reading `brickers_level` gave: an error,
   * nothing stored, or the stored text. Only an exact level name is
   * adopted; anything else, including a failed read, gives the default.
   */
  function GetSavedLevel(read: Result<Option<string>>): (l: Level)
    ensures read.Ok? && read.value.Some? && IsLevelName(read.value.value) ==> Name(l) == read.value.value
    ensures !(read.Ok? && read.value.Some? && IsLevelName(read.value.value)) ==> l == DefaultLevel
  {
    if read.Ok? && read.value.Some? && IsLevelName(read.value.value) then FromName(read.value.value)
    else DefaultLevel
  }

  /** `saveLevel(level)` stores the level's name; reading it back gives the same level. */
  lemma SavedLevelRoundTrip(l: Level)
    ensures GetSavedLevel(Ok(Some(Name(l)))) == l
  {
  }

  /** The `input` of `resolveLevel`: missing (`undefined` or `null`), a string, or an array of strings. */
  datatype LevelInput = Absent | Str(s: string) | Arr(items: seq<string>)

  /** `Array.isArray(input) ? input[0] : input`, with '' standing for a missing value. */
  function RawLevel(input: LevelInput): string {
    match input
    case Absent => ""
    case Str(s) => s
    case Arr(items) => if items == [] then "" else items[0]
  }

  /** `resolveLevel`: the upper-cased input when it names a level, and the default otherwise (a missing input among them). */
  function ResolveLevel(input: LevelInput): (l: Level)
    ensures l == L1 <==> Upper(RawLevel(input)) == "L1"
    ensures l == L3 <==> Upper(RawLevel(input)) == "L3"
    ensures l == L2 <==> !(Upper(RawLevel(input)) == "L1" || Upper(RawLevel(input)) == "L3")
  {
    var raw := RawLevel(input);
    var upper := Upper(if raw != "" then raw else Name(DefaultLevel));
    DefaultIsItsName();
    if IsLevelName(upper) then FromName(upper) else DefaultLevel
  }

  /** The default level's name is already upper case. */
  lemma DefaultIsItsName()
    ensures Upper(Name(DefaultLevel)) == Name(DefaultLevel)
  {
    assert Upper("L2")[0] == 'L' && Upper("L2")[1] == '2';
  }

  /** A level's own name resolves to that level, as a string or as the first element of an array. */
  lemma ResolveName(l: Level, rest: seq<string>)
    ensures ResolveLevel(Str(Name(l))) == l
    ensures ResolveLevel(Arr([Name(l)] + rest)) == l
  {
    UpperIdempotent(Name(l));
    assert Upper(Name(l)) == Name(l) by {
      assert Upper(Name(l))[0] == UpperChar(Name(l)[0]);
      assert Upper(Name(l))[1] == UpperChar(Name(l)[1]);
    }
  }

  /** `resolveLevel` is idempotent: its result, passed back in, resolves to itself. */
  lemma ResolveLevelIdempotent(input: LevelInput)
    ensures ResolveLevel(Str(Name(ResolveLevel(input)))) == ResolveLevel(input)
  {
    ResolveName(ResolveLevel(input), []);
  }

  /** Matching ignores case. */
  lemma ResolveLevelIgnoresCase(s: string)
    ensures ResolveLevel(Str(Lower(s))) == ResolveLevel(Str(s))
    ensures ResolveLevel(Str(Upper(s))) == ResolveLevel(Str(s))
  {
    UpperOfLower(s);
    UpperIdempotent(s);
  }

  /** The two readers disagree on case: a lower-case name is the default when read from storage but its level when resolved. */
  lemma SavedLevelIsCaseSensitive()
    ensures GetSavedLevel(Ok(Some("l1"))) == L2
    ensures ResolveLevel(Str("l1")) == L1
  {
    assert Upper("l1")[0] == 'L' && Upper("l1")[1] == '1';
    assert Upper("l1") == "L1";
  }
}
