/**
 * extractFoodName: turn the food-recognition response into a display name
 * and a list of items, trying the backend label, the item list, a few
 * alternative fields and the free-text descriptions before falling back to
 * "Essen". Every candidate passes validateAndSanitize, which trims, rejects
 * placeholders and punctuation-only text, and truncates to 40 characters
 * plus an ellipsis.
 */
module FoodName {
  import opened Basics
  import opened JsValues

  const MaxFoodNameLength: nat := 40
  const UnknownFoodLabel: string := "Unbekanntes Lebensmittel"
  const AdditionalItemsSuffix: string := " u.a."
  const FallbackName: string := "Essen"

  // ---------------------------------------------------------------------------
  // Text helpers
  // ---------------------------------------------------------------------------

  /** The characters String.prototype.trim and the regex class \s treat as white space. */
  predicate IsJsWhitespace(c: char)
  {
    c == '\t' || c == '\n' || c == '\U{000B}' || c == '\U{000C}' || c == '\r' || c == ' '
    || c == '\U{00A0}' || c == '\U{1680}' || ('\U{2000}' <= c <= '\U{200A}')
    || c == '\U{2028}' || c == '\U{2029}' || c == '\U{202F}' || c == '\U{205F}'
    || c == '\U{3000}' || c == '\U{FEFF}'
  }

  /** Neither end of `s` is white space. */
  predicate Trimmed(s: string)
  {
    s != [] ==> !IsJsWhitespace(s[0]) && !IsJsWhitespace(s[|s| - 1])
  }

  function TrimStart(s: string): (r: string)
    ensures |r| <= |s| && r == s[|s| - |r|..]
    ensures r != [] ==> !IsJsWhitespace(r[0])
  {
    if s != [] && IsJsWhitespace(s[0]) then TrimStart(s[1..]) else s
  }

  function TrimEnd(s: string): (r: string)
    ensures |r| <= |s| && r == s[..|r|]
    ensures r != [] ==> !IsJsWhitespace(r[|r| - 1])
  {
    if s != [] && IsJsWhitespace(s[|s| - 1]) then TrimEnd(s[..|s| - 1]) else s
  }

  /** Everything TrimEnd drops is white space. */
  lemma {:induction false} TrimEndDropsWhitespace(s: string)
    ensures forall i :: |TrimEnd(s)| <= i < |s| ==> IsJsWhitespace(s[i])
  {
    if s != [] && IsJsWhitespace(s[|s| - 1]) {
      TrimEndDropsWhitespace(s[..|s| - 1]);
    }
  }

  /** Everything TrimStart drops is white space. */
  lemma {:induction false} TrimStartDropsWhitespace(s: string)
    ensures forall i :: 0 <= i < |s| - |TrimStart(s)| ==> IsJsWhitespace(s[i])
  {
    if s != [] && IsJsWhitespace(s[0]) {
      TrimStartDropsWhitespace(s[1..]);
    }
  }

  /** String.prototype.trim: the longest slice without white space at either end. */
  function Trim(s: string): (r: string)
    ensures Trimmed(r) && |r| <= |s|
  {
    TrimEnd(TrimStart(s))
  }

  /** Only text made of white space trims to nothing. */
  lemma TrimEmptyIffBlank(s: string)
    ensures Trim(s) == [] <==> forall i :: 0 <= i < |s| ==> IsJsWhitespace(s[i])
  {
    var front := TrimStart(s);
    TrimStartDropsWhitespace(s);
    TrimEndDropsWhitespace(front);
    if Trim(s) == [] {
      assert front == [];
    } else {
      assert !IsJsWhitespace(front[0]) && front[0] == s[|s| - |front|];
    }
  }

  lemma {:induction false} TrimStartNoop(s: string)
    requires s == [] || !IsJsWhitespace(s[0])
    ensures TrimStart(s) == s
  {
  }

  lemma {:induction false} TrimEndNoop(s: string)
    requires s == [] || !IsJsWhitespace(s[|s| - 1])
    ensures TrimEnd(s) == s
  {
  }

  /** Text that starts with a visible character does not trim to nothing. */
  lemma TrimNotBlank(s: string)
    requires s != [] && !IsJsWhitespace(s[0])
    ensures Trim(s) != []
  {
    TrimStartNoop(s);
    TrimEndDropsWhitespace(s);
  }

  /** Trimming text that is already trimmed changes nothing. */
  lemma TrimTrimmed(s: string)
    requires Trimmed(s)
    ensures Trim(s) == s
  {
    TrimStartNoop(s);
    TrimEndNoop(s);
  }

  /** The only characters the three placeholder words contain are ASCII letters, so lower-casing ASCII decides equality. */
  function AsciiLower(c: char): char
  {
    if 'A' <= c <= 'Z' then (c as int + 32) as char else c
  }

  function ToLowerAscii(s: string): (r: string)
    ensures |r| == |s|
  {
    seq(|s|, i requires 0 <= i < |s| => AsciiLower(s[i]))
  }

  /** 'undefined', 'null' or 'none' in any letter case. */
  predicate IsPlaceholder(s: string)
  {
    var lower := ToLowerAscii(s);
    lower == "undefined" || lower == "null" || lower == "none"
  }

  /** The letters and digits whose presence makes a name more than punctuation. */
  predicate IsNameChar(c: char)
  {
    ('a' <= c <= 'z') || ('A' <= c <= 'Z') || ('0' <= c <= '9') || c in "äöüÄÖÜß"
  }

  predicate HasNameChar(s: string)
  {
    exists i :: 0 <= i < |s| && IsNameChar(s[i])
  }

  // ---------------------------------------------------------------------------
  // validateAndSanitize
  // ---------------------------------------------------------------------------

  /** The shape of every name the module hands out. */
  predicate NameShape(name: string, maxLength: nat)
  {
    name != [] && |name| <= maxLength && Trimmed(name)
  }

  /** validateAndSanitize on a string. */
  function SanitizeText(s: string): (r: Option<string>)
    ensures r.Some? ==> NameShape(r.value, MaxFoodNameLength + 3)
  {
    var trimmed := Trim(s);
    if trimmed == [] then None
    else if IsPlaceholder(trimmed) then None
    else if !HasNameChar(trimmed) then None
    else if |trimmed| > MaxFoodNameLength then
      var truncated := Trim(trimmed[..MaxFoodNameLength]);
      assert truncated != [] by {
        TrimNotBlank(trimmed[..MaxFoodNameLength]);
      }
      EllipsisShape(truncated);
      Some(truncated + "...")
    else Some(trimmed)
  }

  /** Rejected exactly when the trimmed text is empty, a placeholder, or has no letter or digit. */
  lemma SanitizeRejects(s: string)
    ensures SanitizeText(s).None? <==> Trim(s) == [] || IsPlaceholder(Trim(s)) || !HasNameChar(Trim(s))
  {
  }

  /** Text that fits is kept as it is after trimming. */
  lemma SanitizeShort(s: string)
    requires SanitizeText(s).Some? && |Trim(s)| <= MaxFoodNameLength
    ensures SanitizeText(s).value == Trim(s) && HasNameChar(Trim(s))
  {
  }

  /** Longer text is cut to its first 40 characters, trimmed again, and marked with an ellipsis. */
  lemma SanitizeLong(s: string)
    requires SanitizeText(s).Some? && |Trim(s)| > MaxFoodNameLength
    ensures var v := SanitizeText(s).value;
            3 < |v| && v[|v| - 3..] == "..." && v[..|v| - 3] == Trim(Trim(s)[..MaxFoodNameLength])
  {
    var truncated := Trim(Trim(s)[..MaxFoodNameLength]);
    TrimNotBlank(Trim(s)[..MaxFoodNameLength]);
    SanitizeLongValue(s);
    EllipsisParts(truncated);
  }

  lemma SanitizeLongValue(s: string)
    requires SanitizeText(s).Some? && |Trim(s)| > MaxFoodNameLength
    ensures SanitizeText(s).value == Trim(Trim(s)[..MaxFoodNameLength]) + "..."
  {
  }

  /** A trimmed name of at most 40 characters followed by "..." still has the name shape. */
  lemma EllipsisShape(t: string)
    requires t != [] && Trimmed(t) && |t| <= MaxFoodNameLength
    ensures NameShape(t + "...", MaxFoodNameLength + 3)
  {
    var name := t + "...";
    assert name[0] == t[0] && name[|name| - 1] == '.';
  }

  lemma EllipsisParts(t: string)
    ensures var v := t + "..."; 3 < |v| ==> v[|v| - 3..] == "..." && v[..|v| - 3] == t
    ensures 0 < |t| ==> 3 < |t + "..."|
  {
  }

  /**
   * Rejected exactly when the trimmed text is empty, a placeholder, or has no
   * letter or digit; kept trimmed when it fits; otherwise cut to at most 40
   * characters and marked with an ellipsis.
   */
  lemma SanitizeTextSpec(s: string)
    ensures var r := SanitizeText(s);
            r.None? <==> Trim(s) == [] || IsPlaceholder(Trim(s)) || !HasNameChar(Trim(s))
    ensures var r := SanitizeText(s);
            r.Some? && |Trim(s)| <= MaxFoodNameLength ==> r.value == Trim(s) && HasNameChar(r.value)
    ensures var r := SanitizeText(s);
            r.Some? && |Trim(s)| > MaxFoodNameLength ==>
              3 < |r.value| && r.value[|r.value| - 3..] == "..." && r.value[..|r.value| - 3] == Trim(Trim(s)[..MaxFoodNameLength])
  {
    SanitizeRejects(s);
    if SanitizeText(s).Some? {
      if |Trim(s)| <= MaxFoodNameLength {
        SanitizeShort(s);
      } else {
        SanitizeLong(s);
      }
    }
  }

  /** validateAndSanitize: anything but a non-empty string is rejected. */
  function ValidateAndSanitize(v: JsValue): (r: Option<string>)
    ensures r.Some? ==> v.Str? && NameShape(r.value, MaxFoodNameLength + 3)
  {
    if !Truthy(v) || !v.Str? then None else SanitizeText(v.s)
  }

  /** A name that did not need truncating passes the validation again unchanged. */
  lemma SanitizeStable(s: string)
    requires SanitizeText(s).Some? && |Trim(s)| <= MaxFoodNameLength
    ensures SanitizeText(SanitizeText(s).value) == SanitizeText(s)
  {
    SanitizeTextSpec(s);
    TrimTrimmed(Trim(s));
    SanitizeTextSpec(SanitizeText(s).value);
  }

  // ---------------------------------------------------------------------------
  // deriveShortName
  // ---------------------------------------------------------------------------

  /** `s.split(/[.\n]/)[0]`: the text before the first full stop or line break. */
  function FirstSentence(s: string): (r: string)
    ensures |r| <= |s| && r == s[..|r|]
    ensures '.' !in r && '\n' !in r
  {
    if s == [] || s[0] == '.' || s[0] == '\n' then [] else [s[0]] + FirstSentence(s[1..])
  }

  function DropWhitespace(s: string): (r: string)
    ensures |r| <= |s|
    ensures s != [] && IsJsWhitespace(s[0]) ==> |r| < |s|
  {
    if s != [] && IsJsWhitespace(s[0]) then DropWhitespace(s[1..]) else s
  }

  /** `s.split(/\s+/)`: the pieces between runs of white space (an empty piece at an end that is white space). */
  function SplitOnWhitespace(s: string): (r: seq<string>)
    ensures r != []
    decreases |s|
  {
    if s == [] then [[]]
    else if !IsJsWhitespace(s[0]) then
      var rest := SplitOnWhitespace(s[1..]);
      [[s[0]] + rest[0]] + rest[1..]
    else [[]] + SplitOnWhitespace(DropWhitespace(s))
  }

  /** `parts.join(sep)`. */
  function Join(parts: seq<string>, sep: string): string
  {
    if parts == [] then [] else if |parts| == 1 then parts[0] else parts[0] + sep + Join(parts[1..], sep)
  }

  /** `words.slice(0, 5)`. */
  function Take<T>(xs: seq<T>, n: nat): (r: seq<T>)
    ensures |r| == MinInt(n, |xs|)
  {
    if |xs| <= n then xs else xs[..n]
  }

  /**
   * deriveShortName: the first sentence when it is short enough, else the
   * first five words; either way it must pass validateAndSanitize.
   */
  function DeriveShortName(desc: JsValue): (r: Option<string>)
    ensures r.Some? ==> NameShape(r.value, MaxFoodNameLength + 3)
  {
    if !Truthy(desc) || !desc.Str? then None
    else
      var trimmed := Trim(desc.s);
      var firstSentence := Trim(FirstSentence(trimmed));
      if 0 < |firstSentence| <= MaxFoodNameLength then SanitizeText(firstSentence)
      else SanitizeText(FirstWords(trimmed))
  }

  /** `s.split(/\s+/).slice(0, 5).join(' ')`. */
  function FirstWords(s: string): string
  {
    Join(Take(SplitOnWhitespace(s), 5), " ")
  }

  /** Trimming only removes characters. */
  lemma TrimKeepsCharacters(s: string)
    ensures forall c :: c in Trim(s) ==> c in s
  {
    var front := TrimStart(s);
    assert forall c :: c in TrimEnd(front) ==> c in front;
    assert forall c :: c in front ==> c in s;
  }

  /** A trimmed text of at most 40 characters that passes the validation is returned as it is. */
  lemma SanitizeKeepsShort(t: string)
    requires Trimmed(t) && |t| <= MaxFoodNameLength && SanitizeText(t).Some?
    ensures SanitizeText(t).value == t
  {
    TrimTrimmed(t);
    SanitizeTextSpec(t);
  }

  /** A short first sentence is the name: only its validation can still reject it, and it holds no full stop. */
  lemma DeriveUsesFirstSentence(s: string)
    requires s != [] && 0 < |Trim(FirstSentence(Trim(s)))| <= MaxFoodNameLength
    ensures DeriveShortName(Str(s)) == SanitizeText(Trim(FirstSentence(Trim(s))))
    ensures DeriveShortName(Str(s)).Some? ==> '.' !in DeriveShortName(Str(s)).value
  {
    var sentence := FirstSentence(Trim(s));
    var first := Trim(sentence);
    var d := Str(s);
    assert Truthy(d) && d.Str? && d.s == s;
    if SanitizeText(first).Some? {
      SanitizeKeepsShort(first);
      TrimKeepsCharacters(sentence);
      assert '.' !in sentence;
    }
  }

  // ---------------------------------------------------------------------------
  // extractFoodName
  // ---------------------------------------------------------------------------

  datatype FoodName = FoodName(name: string, items: seq<JsValue>)

  const Fallback: FoodName := FoodName(FallbackName, [Str(FallbackName)])

  /** `arr.filter(Boolean)`. */
  function FilterTruthy(xs: seq<JsValue>): (r: seq<JsValue>)
    ensures |r| <= |xs|
    ensures forall i :: 0 <= i < |r| ==> Truthy(r[i])
  {
    if xs == [] then [] else (if Truthy(xs[0]) then [xs[0]] else []) + FilterTruthy(xs[1..])
  }

  /** The item list of strategy 1: strings as they are, otherwise the `label` field. */
  function LabelItems(items: seq<JsValue>): (r: seq<JsValue>)
    ensures forall i :: 0 <= i < |r| ==> Truthy(r[i])
  {
    FilterTruthy(seq(|items|, i requires 0 <= i < |items| => if items[i].Str? then items[i] else OptionalProp(items[i], "label")))
  }

  /** Strategy 2 on one item: a string, or the label, name or title of an object. */
  function ItemLabel(item: JsValue): (r: Option<string>)
    ensures r.Some? ==> NameShape(r.value, MaxFoodNameLength + 3)
  {
    if item.Str? then ValidateAndSanitize(item)
    else if Truthy(item) && IsObjectType(item) then
      ValidateAndSanitize(Or(Or(OptionalProp(item, "label"), OptionalProp(item, "name")), OptionalProp(item, "title")))
    else None
  }

  /** `items.map(...).filter(Boolean)` of strategy 2. */
  function ItemLabels(items: seq<JsValue>): (r: seq<string>)
    ensures forall i :: 0 <= i < |r| ==> NameShape(r[i], MaxFoodNameLength + 3)
  {
    if items == [] then []
    else
      var found := ItemLabel(items[0]);
      var head := if found.Some? then [found.value] else [];
      var rest := ItemLabels(items[1..]);
      assert forall i :: 0 <= i < |head| ==> NameShape(head[i], MaxFoodNameLength + 3);
      head + rest
  }

  /** The joined name of strategy 2, or the first label with ' u.a.' when the join is too long. */
  function ItemsName(labels: seq<string>): (name: string)
    requires labels != []
    requires forall i :: 0 <= i < |labels| ==> NameShape(labels[i], MaxFoodNameLength + 3)
    ensures NameShape(name, MaxFoodNameLength + 3 + |AdditionalItemsSuffix|)
  {
    var joined := Join(labels, ", ");
    forall i | 0 <= i < |labels| ensures labels[i] != [] && Trimmed(labels[i]) {
      assert NameShape(labels[i], MaxFoodNameLength + 3);
    }
    JoinShape(labels);
    if |joined| > MaxFoodNameLength then
      var first := labels[0];
      assert NameShape(first, MaxFoodNameLength + 3);
      if |labels| > 1 then
        var name := first + AdditionalItemsSuffix;
        assert name[0] == first[0] && name[|name| - 1] == '.';
        name
      else first
    else joined
  }

  lemma {:induction false} JoinShape(labels: seq<string>)
    requires labels != []
    requires forall i :: 0 <= i < |labels| ==> labels[i] != [] && Trimmed(labels[i])
    ensures var j := Join(labels, ", "); j != [] && Trimmed(j)
    ensures var j := Join(labels, ", "); j[0] == labels[0][0]
  {
    if |labels| > 1 {
      JoinShape(labels[1..]);
      var rest := Join(labels[1..], ", ");
      assert Join(labels, ", ") == labels[0] + ", " + rest;
      assert (labels[0] + ", " + rest)[|labels[0] + ", " + rest| - 1] == rest[|rest| - 1];
    }
  }

  const AlternativeFields: seq<string> := ["name", "title", "food", "foodName", "dish"]
  const DescriptionFields: seq<string> := ["description", "notes", "reasoning", "message"]

  /** Strategy 3: the first alternative field that is truthy and passes the validation. */
  function FirstValidField(result: JsValue, fields: seq<string>): (r: Option<string>)
    ensures r.Some? ==> NameShape(r.value, MaxFoodNameLength + 3)
  {
    if fields == [] then None
    else
      var v := OptionalProp(result, fields[0]);
      if Truthy(v) && ValidateAndSanitize(v).Some? then ValidateAndSanitize(v)
      else FirstValidField(result, fields[1..])
  }

  /** Strategy 4: the first description field from which a short name can be derived. */
  function FirstDerivedName(result: JsValue, fields: seq<string>): (r: Option<string>)
    ensures r.Some? ==> NameShape(r.value, MaxFoodNameLength + 3)
  {
    if fields == [] then None
    else
      var v := OptionalProp(result, fields[0]);
      if Truthy(v) && DeriveShortName(v).Some? then DeriveShortName(v)
      else FirstDerivedName(result, fields[1..])
  }

  /** The `items` field when it is a non-empty array. */
  function ItemList(result: JsValue): (items: seq<JsValue>)
    ensures items == [] || OptionalProp(result, "items").Arr?
  {
    var items := OptionalProp(result, "items");
    if Truthy(items) && items.Arr? && |items.elems| > 0 then items.elems else []
  }

  /** Strategy 1: the backend label, unless it is missing, invalid or the backend's own "unknown" label. */
  function FromLabel(result: JsValue): (r: Option<FoodName>)
    ensures r.Some? ==> NameShape(r.value.name, MaxFoodNameLength + 3) && r.value.name != UnknownFoodLabel
  {
    var backendLabel := OptionalProp(result, "label");
    var sanitized := ValidateAndSanitize(backendLabel);
    if Truthy(backendLabel) && sanitized.Some? && sanitized.value != UnknownFoodLabel then
      var items := ItemList(result);
      Some(FoodName(sanitized.value, if items != [] then LabelItems(items) else [Str(sanitized.value)]))
    else None
  }

  /** Strategy 2: the validated item labels. */
  function FromItems(result: JsValue): (r: Option<FoodName>)
    ensures r.Some? ==> NameShape(r.value.name, MaxFoodNameLength + 3 + |AdditionalItemsSuffix|)
    ensures r.Some? ==> r.value.items != [] && forall i :: 0 <= i < |r.value.items| ==> r.value.items[i].Str?
  {
    var labels := ItemLabels(ItemList(result));
    if |labels| > 0 then Some(FoodName(ItemsName(labels), seq(|labels|, i requires 0 <= i < |labels| => Str(labels[i]))))
    else None
  }

  /** The name alone, as strategies 3 and 4 report it. */
  function Single(name: string): FoodName
  {
    FoodName(name, [Str(name)])
  }

  /** extractFoodName: the five strategies in order. */
  function ExtractFoodName(result: JsValue): (r: FoodName)
    ensures NameShape(r.name, MaxFoodNameLength + 3 + |AdditionalItemsSuffix|)
    ensures !Truthy(result) ==> r == Fallback
  {
    if !Truthy(result) then Fallback
    else if FromLabel(result).Some? then FromLabel(result).value
    else if FromItems(result).Some? then FromItems(result).value
    else if FirstValidField(result, AlternativeFields).Some? then Single(FirstValidField(result, AlternativeFields).value)
    else if FirstDerivedName(result, DescriptionFields).Some? then Single(FirstDerivedName(result, DescriptionFields).value)
    else Fallback
  }

  /** A usable backend label always wins, whatever else the response holds. */
  lemma LabelWins(result: JsValue, s: string)
    requires result.Obj? && "label" in result.fields && result.fields["label"] == Str(s)
    requires SanitizeText(s).Some? && SanitizeText(s).value != UnknownFoodLabel
    ensures ExtractFoodName(result).name == SanitizeText(s).value
  {
    assert FromLabel(result).Some?;
  }

  /** Without `label` and `items` fields, strategies 1 and 2 find nothing. */
  lemma NoLabelNoItems(fields: map<string, JsValue>)
    requires "label" !in fields && "items" !in fields
    ensures FromLabel(Obj(fields)).None? && FromItems(Obj(fields)).None?
  {
    assert OptionalProp(Obj(fields), "label") == Undefined;
    assert ItemList(Obj(fields)) == [];
  }

  /** Strategy 3 looks at `name` first. */
  lemma NameFieldFirst(fields: map<string, JsValue>, s: string)
    requires "name" in fields && fields["name"] == Str(s) && SanitizeText(s).Some?
    ensures FirstValidField(Obj(fields), AlternativeFields) == SanitizeText(s)
  {
    assert AlternativeFields[0] == "name";
    assert ValidateAndSanitize(Str(s)) == SanitizeText(s);
  }

  /** A response without label and items whose `name` field is usable is named after that field. */
  lemma AlternativeNameUsed(fields: map<string, JsValue>, s: string)
    requires "label" !in fields && "items" !in fields
    requires "name" in fields && fields["name"] == Str(s)
    requires SanitizeText(s).Some?
    ensures ExtractFoodName(Obj(fields)) == Single(SanitizeText(s).value)
  {
    NoLabelNoItems(fields);
    NameFieldFirst(fields, s);
  }

  /** Strategy 2 comes before strategy 3: usable items win over every alternative field. */
  lemma ItemsBeforeFields(result: JsValue)
    requires Truthy(result) && FromLabel(result).None? && FromItems(result).Some?
    ensures ExtractFoodName(result) == FromItems(result).value
  {
  }

  /** Strategy 3 comes before strategy 4: a usable alternative field wins over every description. */
  lemma FieldsBeforeDescriptions(result: JsValue)
    requires Truthy(result) && FromLabel(result).None? && FromItems(result).None?
    requires FirstValidField(result, AlternativeFields).Some?
    ensures ExtractFoodName(result) == Single(FirstValidField(result, AlternativeFields).value)
  {
  }

  /** Strategy 4 is used when the first three find nothing. */
  lemma DescriptionsUsed(result: JsValue)
    requires Truthy(result) && FromLabel(result).None? && FromItems(result).None?
    requires FirstValidField(result, AlternativeFields).None? && FirstDerivedName(result, DescriptionFields).Some?
    ensures ExtractFoodName(result) == Single(FirstDerivedName(result, DescriptionFields).value)
  {
  }

  /**
   * "Essen" is the name only if nothing valid was found: for a truthy
   * response named "Essen", the first strategy that found anything found
   * exactly "Essen", and when none found anything the items are the fallback's.
   */
  lemma FallbackOnlyWhenNothingFound(result: JsValue)
    requires Truthy(result) && ExtractFoodName(result).name == FallbackName
    ensures FromLabel(result).Some? ==> FromLabel(result).value.name == FallbackName
    ensures FromLabel(result).None? && FromItems(result).Some? ==> FromItems(result).value.name == FallbackName
    ensures FromLabel(result).None? && FromItems(result).None? && FirstValidField(result, AlternativeFields).Some? ==>
              FirstValidField(result, AlternativeFields).value == FallbackName
    ensures FromLabel(result).None? && FromItems(result).None? && FirstValidField(result, AlternativeFields).None?
            && FirstDerivedName(result, DescriptionFields).Some? ==>
              FirstDerivedName(result, DescriptionFields).value == FallbackName
    ensures ExtractFoodName(result).items == [Str(FallbackName)]
            || FromLabel(result).Some? || FromItems(result).Some?
  {
  }
}
