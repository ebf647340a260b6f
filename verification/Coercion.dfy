/** List fields as the voice agent sends them, and the flat strings the callback
    agent is given and echoes back. */
module Coercion {
  import opened Schema
  import opened Text

  /** A payload or context value. List items are None or their str(). */
  datatype Value =
    | Null
    | Bool(b: bool)
    | Str(text: string)
    | List(items: seq<Option<string>>)
    | Scalar(shown: string)

  function Clean(items: seq<Option<string>>): seq<string> {
    if items == [] then []
    else
      var text := if items[0].Some? then Strip(items[0].value) else "";
      (if text != "" then [text] else []) + Clean(items[1..])
  }

  function Items(strings: seq<string>): (items: seq<Option<string>>)
    ensures |items| == |strings| && forall i :: 0 <= i < |items| ==> items[i] == Some(strings[i])
  {
    if strings == [] then [] else [Some(strings[0])] + Items(strings[1..])
  }

  function SplitList(value: Value): Value {
    match value
    case Null => List([])
    case Str(s) => List(Items(Clean(Items(Split(s)))))
    case List(items) => List(Items(Clean(items)))
    case _ => value
  }

  /** text.strip(", \t") is not empty. */
  predicate HasStatement(text: string) {
    exists i :: 0 <= i < |text| && text[i] !in {',', ' ', '\t'}
  }

  function WrapList(value: Value): Value {
    match value
    case Null => List([])
    case Str(s) => if HasStatement(Strip(s)) then List([Some(Strip(s))]) else List([])
    case List(items) => List(Items(Clean(items)))
    case _ => value
  }

  /** The items that are not None. */
  function Present(items: seq<Option<string>>): seq<string> {
    if items == [] then []
    else (if items[0].Some? then [items[0].value] else []) + Present(items[1..])
  }

  /** ", ".join(parts) */
  function Join(parts: seq<string>): string {
    if parts == [] then ""
    else if |parts| == 1 then parts[0]
    else parts[0] + ", " + Join(parts[1..])
  }

  function OrNone(text: string): Option<string> {
    if text == "" then None else Some(text)
  }

  function AsVariable(value: Value): Option<string> {
    match value
    case Null => None
    case Bool(b) => Some(if b then "true" else "false")
    case List(items) => OrNone(Join(Present(items)))
    case Str(text) => OrNone(Strip(text))
    case Scalar(shown) => OrNone(Strip(shown))
  }

  /** The agent echoes a variable it was given as a string, and one it was not as null. */
  function Echoed(variable: Option<string>): Value {
    if variable.None? then Null else Str(variable.value)
  }

  // ------------------------------------------------------------ variables

  /** A value that is no list is given to the agent as its text without the spaces around it,
      or not at all when nothing is left; a flag as true or false. */
  lemma VariableText(text: string, b: bool)
    ensures AsVariable(Null).None?
    ensures AsVariable(Bool(b)) == Some(if b then "true" else "false")
    ensures AsVariable(Str(text)) == AsVariable(Scalar(text))
    ensures AsVariable(Str(text)).Some? ==>
              AsVariable(Str(text)).value != "" && Trims(text, AsVariable(Str(text)).value)
    ensures AsVariable(Str(text)).None? ==> Trims(text, "")
  {
    StripTrims(text);
  }

  predicate AllNone(items: seq<Option<string>>) {
    forall i :: 0 <= i < |items| ==> items[i].None?
  }

  function TextOf(variable: Option<string>): string {
    if variable.Some? then variable.value else ""
  }

  lemma {:induction false} PresentOfNone(items: seq<Option<string>>)
    ensures AllNone(items) <==> Present(items) == []
  {
    if items != [] {
      PresentOfNone(items[1..]);
      assert AllNone(items) <==> items[0].None? && AllNone(items[1..]);
    }
  }

  /** A list is given as its items that are not None, in order, with a comma and a space between
      each two, or not at all when that is empty. */
  lemma ListText(x: string, rest: seq<Option<string>>)
    ensures AsVariable(List([])).None?
    ensures AsVariable(List([None] + rest)) == AsVariable(List(rest))
    ensures AllNone(rest) ==> AsVariable(List([Some(x)] + rest)) == if x == "" then None else Some(x)
    ensures !AllNone(rest) ==> AsVariable(List([Some(x)] + rest)) == Some(x + ", " + TextOf(AsVariable(List(rest))))
  {
    PresentOfNone(rest);
    assert ([None] + rest)[1..] == rest && ([Some(x)] + rest)[1..] == rest;
    assert Present([None] + rest) == [] + Present(rest) == Present(rest);
    assert Present([Some(x)] + rest) == [x] + Present(rest);
    assert ([x] + Present(rest))[1..] == Present(rest) && [x] + [] == [x];
    if !AllNone(rest) {
      var parts, tail := [x] + Present(rest), Join(Present(rest));
      assert Join(parts) == parts[0] + ", " + Join(parts[1..]) == x + ", " + tail;
      assert (x + ", " + tail)[|x|] == ',';
      assert TextOf(AsVariable(List(rest))) == tail;
    }
  }

  // ------------------------------------------------------------- cleaning

  /** The entries a comma-separated string stands for. */
  function Tags(s: string): seq<string> {
    Clean(Items(Split(s)))
  }

  predicate IsTag(text: string) {
    text != "" && Strip(text) == text
  }

  lemma {:induction false} CleanAppend(a: seq<Option<string>>, b: seq<Option<string>>)
    ensures Clean(a + b) == Clean(a) + Clean(b)
  {
    if a == [] {
      assert a + b == b;
    } else {
      assert (a + b)[1..] == a[1..] + b;
      CleanAppend(a[1..], b);
    }
  }

  lemma {:induction false} ItemsAppend(a: seq<string>, b: seq<string>)
    ensures Items(a + b) == Items(a) + Items(b)
  {
  }

  lemma {:induction false} CleanYieldsTags(items: seq<Option<string>>)
    ensures forall text :: text in Clean(items) ==> IsTag(text)
  {
    if items != [] {
      CleanYieldsTags(items[1..]);
      if items[0].Some? { StripKeeps(items[0].value); }
    }
  }

  lemma {:induction false} CleanKeepsTags(tags: seq<string>)
    requires forall text :: text in tags ==> IsTag(text)
    ensures Clean(Items(tags)) == tags
  {
    if tags != [] {
      assert tags[0] in tags;
      assert forall text :: text in tags[1..] ==> text in tags;
      CleanKeepsTags(tags[1..]);
      assert Items(tags)[1..] == Items(tags[1..]);
    }
  }

  lemma {:induction false} TagsHaveNoComma(s: string)
    ensures forall text :: text in Tags(s) ==> ',' !in text
  {
    PartsHaveNoComma(s);
    CleanKeepsCommaFree(Split(s));
  }

  lemma {:induction false} CleanKeepsCommaFree(parts: seq<string>)
    requires forall part :: part in parts ==> ',' !in part
    ensures forall text :: text in Clean(Items(parts)) ==> ',' !in text
  {
    if parts != [] {
      assert parts[0] in parts;
      assert forall part :: part in parts[1..] ==> part in parts;
      StripKeeps(parts[0]);
      CleanKeepsCommaFree(parts[1..]);
      assert Items(parts)[1..] == Items(parts[1..]);
    }
  }

  // ------------------------------------------------------------ theorems

  /** split_list and wrap_list leave alone what either of them has produced. */
  lemma CoercionIsIdempotent(value: Value)
    ensures SplitList(SplitList(value)) == SplitList(value)
    ensures WrapList(WrapList(value)) == WrapList(value)
    ensures WrapList(SplitList(value)) == SplitList(value)
    ensures SplitList(WrapList(value)) == WrapList(value)
    ensures value.Bool? || value.Scalar? ==> SplitList(value) == value && WrapList(value) == value
    ensures value.Null? ==> SplitList(value) == List([]) && WrapList(value) == List([])
  {
    match value
    case Null =>
    case Str(s) =>
      CleanYieldsTags(Items(Split(s)));
      CleanKeepsTags(Tags(s));
      StripKeeps(s);
      if HasStatement(Strip(s)) {
        CleanKeepsTags([Strip(s)]);
        assert Items([Strip(s)]) == [Some(Strip(s))];
      }
    case List(items) =>
      CleanYieldsTags(items);
      CleanKeepsTags(Clean(items));
    case _ =>
  }

  lemma TagsAtComma(a: string, b: string)
    ensures Tags(a + "," + b) == Tags(a) + Tags(b)
  {
    SplitAtComma(a, b);
    ItemsAppend(Split(a), Split(b));
    CleanAppend(Items(Split(a)), Items(Split(b)));
  }

  lemma TagsAfterSpace(s: string)
    ensures Tags(" " + s) == Tags(s)
  {
    var parts := Split(s);
    var spaced := [" " + parts[0]] + parts[1..];
    assert (" " + s)[1..] == s;
    assert Split(" " + s) == spaced;
    assert Strip(" " + parts[0]) == Strip(parts[0]) by {
      assert (" " + parts[0])[1..] == parts[0];
    }
    assert Items(spaced)[1..] == Items(parts)[1..];
  }

  /** The tags of the parts, one part after the other. */
  function AllTags(parts: seq<string>): seq<string> {
    if parts == [] then [] else Tags(parts[0]) + AllTags(parts[1..])
  }

  lemma {:induction false} TagsOfJoin(parts: seq<string>)
    ensures Tags(Join(parts)) == AllTags(parts)
  {
    if |parts| >= 2 {
      var rest := Join(parts[1..]);
      assert parts[0] + ", " + rest == parts[0] + "," + (" " + rest);
      TagsAtComma(parts[0], " " + rest);
      TagsAfterSpace(rest);
      TagsOfJoin(parts[1..]);
    } else if |parts| == 1 {
      assert AllTags(parts) == Tags(parts[0]) + AllTags([]);
    } else {
      assert Strip("") == "";
    }
  }

  function Entry(text: string): seq<string> {
    if Strip(text) != "" then [Strip(text)] else []
  }

  lemma CleanCons(text: string, rest: seq<string>)
    ensures Clean(Items([text] + rest)) == Entry(text) + Clean(Items(rest))
  {
    var items := Items([text] + rest);
    assert items[0] == Some(text);
    assert items[1..] == Items(rest);
  }

  lemma CommaFreeTags(text: string)
    requires ',' !in text
    ensures Tags(text) == Entry(text)
  {
    SplitWithoutComma(text);
    CleanCons(text, []);
    assert [text] + [] == [text] && Entry(text) + Clean(Items([])) == Entry(text);
  }

  lemma {:induction false} CommaFreeTagsAreClean(parts: seq<string>)
    requires forall part :: part in parts ==> ',' !in part
    ensures AllTags(parts) == Clean(Items(parts))
  {
    if parts != [] {
      var head, rest := parts[0], parts[1..];
      assert head in parts && forall part :: part in rest ==> part in parts;
      CommaFreeTags(head);
      CommaFreeTagsAreClean(rest);
      CleanCons(head, rest);
      assert [head] + rest == parts;
    }
  }

  lemma {:induction false} CleanSeesPresent(items: seq<Option<string>>)
    ensures Clean(items) == Clean(Items(Present(items)))
  {
    if items != [] {
      CleanSeesPresent(items[1..]);
      if items[0].Some? {
        CleanCons(items[0].value, Present(items[1..]));
        assert Present(items) == [items[0].value] + Present(items[1..]);
      } else {
        assert Present(items) == Present(items[1..]) && Clean(items) == Clean(items[1..]);
      }
    }
  }

  lemma {:induction false} AllTagsHaveNoComma(parts: seq<string>)
    ensures forall text :: text in AllTags(parts) ==> ',' !in text
  {
    if parts != [] {
      TagsHaveNoComma(parts[0]);
      AllTagsHaveNoComma(parts[1..]);
    }
  }

  lemma {:induction false} CleanKeepsComma(parts: seq<string>, part: string)
    requires part in parts && ',' in part
    ensures Strip(part) in Clean(Items(parts)) && ',' in Strip(part)
  {
    StripKeeps(part);
    assert Items(parts)[1..] == Items(parts[1..]);
    if parts[0] != part {
      CleanKeepsComma(parts[1..], part);
    }
  }

  lemma EchoOfJoin(parts: seq<string>)
    ensures SplitList(Echoed(OrNone(Join(parts)))) == List(Items(AllTags(parts)))
  {
    TagsOfJoin(parts);
    if Join(parts) == "" {
      assert Tags("") == [] by { assert Strip("") == ""; }
    }
  }

  /** A list the callback agent is given and echoes comes back as the list that split_list
      makes of it, exactly when no item contains a comma. */
  lemma ListSurvivesEcho(items: seq<Option<string>>)
    ensures SplitList(Echoed(AsVariable(List(items)))) == SplitList(List(items))
       <==> forall part :: part in Present(items) ==> ',' !in part
  {
    var parts := Present(items);
    EchoOfJoin(parts);
    CleanSeesPresent(items);
    ItemsInjective(AllTags(parts), Clean(Items(parts)));
    if forall part :: part in parts ==> ',' !in part {
      CommaFreeTagsAreClean(parts);
    } else {
      var part :| part in parts && ',' in part;
      CleanKeepsComma(parts, part);
      AllTagsHaveNoComma(parts);
    }
  }

  lemma ItemsInjective(a: seq<string>, b: seq<string>)
    ensures Items(a) == Items(b) <==> a == b
  {
    if Items(a) == Items(b) {
      assert |a| == |b|;
      assert forall i :: 0 <= i < |a| ==> Some(a[i]) == Items(a)[i] == Items(b)[i] == Some(b[i]);
    }
  }

  lemma {:induction false} PresentOfItems(strings: seq<string>)
    ensures Present(Items(strings)) == strings
  {
    if strings != [] {
      PresentOfItems(strings[1..]);
      assert Items(strings)[1..] == Items(strings[1..]);
    }
  }

  /** What split_list made of any string survives being flattened and echoed. */
  lemma StringSurvivesEcho(s: string)
    ensures SplitList(Echoed(AsVariable(SplitList(Str(s))))) == SplitList(Str(s))
  {
    PresentOfItems(Tags(s));
    TagsHaveNoComma(s);
    ListSurvivesEcho(Items(Tags(s)));
    CoercionIsIdempotent(Str(s));
  }

  lemma InSeparators(c: char)
    ensures c in ", \t" <==> c == ',' || c == ' ' || c == '\t'
  {
    var separators := ", \t";
    assert separators[0] == ',' && separators[1] == ' ' && separators[2] == '\t' && |separators| == 3;
  }

  lemma StatementMeans(text: string)
    ensures HasStatement(text) <==> exists c :: c in text && c !in ", \t"
  {
    if c :| c in text && c !in ", \t" {
      InSeparators(c);
      var i :| 0 <= i < |text| && text[i] == c;
      assert text[i] !in {',', ' ', '\t'};
    }
    if i :| 0 <= i < |text| && text[i] !in {',', ' ', '\t'} {
      InSeparators(text[i]);
      assert text[i] in text;
    }
  }

  /** wrap_list keeps a quoted statement whole, commas and all, unless it is nothing but
      separators; split_list of the same text never returns a comma. */
  lemma WrapKeepsStatement(s: string)
    ensures WrapList(Str(s)) == List([Some(Strip(s))]) <==> exists c :: c in Strip(s) && c !in ", \t"
    ensures WrapList(Str(s)) == List([]) <==> forall c :: c in Strip(s) ==> c in ", \t"
    ensures forall text :: Some(text) in SplitList(Str(s)).items ==> IsTag(text) && ',' !in text
  {
    StatementMeans(Strip(s));
    TagsHaveNoComma(s);
    CleanYieldsTags(Items(Split(s)));
    forall text | Some(text) in SplitList(Str(s)).items ensures text in Tags(s) {
      var i :| 0 <= i < |SplitList(Str(s)).items| && SplitList(Str(s)).items[i] == Some(text);
      assert Tags(s)[i] == text;
    }
  }
}
