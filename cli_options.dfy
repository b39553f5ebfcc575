/** The comma-separated options of the `transcribe` command (cli.py): `--parts` and `--format`. */
module CliOptions {
  import opened Outcome
  import opened Strings

  /** One item of the split text: `item.strip().lower()`, or nothing when the stripped item is empty. */
  function CleanItem(item: string): (r: Option<string>)
  {
    var stripped := Strip(item);
    if stripped == [] then None else Some(Lower(stripped))
  }

  /** `[part.strip().lower() for part in s.split(",") if part.strip()]`, for `--parts` and `--format`. */
  function ParseList(s: string): seq<string>
  {
    Somes(Slots(Split(s, ',')))
  }

  /** The six parts of a score, as the default `--parts` names them. */
  const SCORE_PARTS: seq<string> := ["lead_vocal", "backing_vocal", "bass", "drums", "backing_harmony", "chords"]

  /** The default `--parts`: `"lead_vocal,backing_vocal,bass,drums,backing_harmony,chords"`. */
  const DEFAULT_PARTS: string := Join(SCORE_PARTS, ',')

  /** The default `--format`: `"midi,musicxml"`. */
  const DEFAULT_FORMATS: string := Join(["midi", "musicxml"], ',')

  /** The slots of the comprehension: one per piece of the split text. */
  function Slots(items: seq<string>): (slots: seq<Option<string>>)
    ensures |slots| == |items| && forall i :: 0 <= i < |items| ==> slots[i] == CleanItem(items[i])
  {
    seq(|items|, i requires 0 <= i < |items| => CleanItem(items[i]))
  }

  /**
   * An item is dropped exactly when it is all whitespace; a kept item is the lower-cased slice of the item
   * between whitespace-only ends, non-empty and lower-case, and holds a comma only if the item did; a clean
   * item is kept as it is.
   */
  lemma CleanItemValue(item: string)
    ensures CleanItem(item).None? <==> forall i :: 0 <= i < |item| ==> IsSpace(item[i])
    ensures CleanItem(item).Some? ==> CleanItem(item).value != [] && IsLowerCase(CleanItem(item).value)
    ensures ',' !in item && CleanItem(item).Some? ==> ',' !in CleanItem(item).value
    ensures IsCleanItem(item) ==> CleanItem(item) == Some(item)
    ensures CleanItem(item).Some? ==>
      exists a, b :: IsStripSlice(item, a, b) && CleanItem(item).value == Lower(item[a..b])
  {
    assert CleanItem(item).Some? ==>
      exists a, b :: IsStripSlice(item, a, b) && CleanItem(item).value == Lower(item[a..b]) by {
      CleanItemSlice(item);
    }
    var r := Strip(item);
    StripMeaning(item);
    if r != [] {
      var v := Lower(r);
      assert CleanItem(item) == Some(v);
      LowerIsLowerCase(r);
      if ',' !in item {
        forall i | 0 <= i < |v| ensures v[i] != ',' {
          assert v[i] == LowerChar(r[i]) && r[i] in item;
        }
      }
    }
    if IsCleanItem(item) {
      LowerOfLowerCase(item);
    }
  }

  /** A kept item is the lower-cased slice of the item between whitespace-only ends. */
  lemma CleanItemSlice(item: string)
    ensures CleanItem(item).Some? ==>
      exists a, b :: IsStripSlice(item, a, b) && CleanItem(item).value == Lower(item[a..b])
  {
    StripSlice(item);
  }

  /** An item already clean: not empty, lower-case, without whitespace or commas. */
  predicate IsCleanItem(x: string)
  {
    x != [] && IsLowerCase(x) && forall i :: 0 <= i < |x| ==> !IsSpace(x[i]) && x[i] != ','
  }

  /** The parsed values are exactly the cleaned non-blank pieces of the text. */
  lemma ParseListMembers(s: string, x: string)
    ensures x in ParseList(s) <==> exists i :: 0 <= i < |Split(s, ',')| && CleanItem(Split(s, ',')[i]) == Some(x)
  {
    var items := Split(s, ',');
    var slots := Slots(items);
    SomesMembers(slots, x);
    assert ParseList(s) == Somes(slots);
    if x in ParseList(s) {
      var i :| 0 <= i < |slots| && slots[i] == Some(x);
      assert 0 <= i < |Split(s, ',')| && CleanItem(Split(s, ',')[i]) == Some(x);
    } else {
      forall i | 0 <= i < |items| ensures CleanItem(items[i]) != Some(x) {
        assert slots[i] != Some(x);
      }
    }
  }

  /** Every parsed value is non-empty, lower-case and free of commas, so lowercasing them again changes nothing. */
  lemma ParseListValues(s: string)
    ensures forall k :: 0 <= k < |ParseList(s)| ==> ParseList(s)[k] != [] && IsLowerCase(ParseList(s)[k])
    ensures forall k :: 0 <= k < |ParseList(s)| ==> ',' !in ParseList(s)[k]
    ensures forall k :: 0 <= k < |ParseList(s)| ==> Lower(ParseList(s)[k]) == ParseList(s)[k]
  {
    var items := Split(s, ',');
    var r := ParseList(s);
    forall k | 0 <= k < |r| ensures r[k] != [] && IsLowerCase(r[k]) && ',' !in r[k] {
      ParseListMembers(s, r[k]);
      var i :| 0 <= i < |items| && CleanItem(items[i]) == Some(r[k]);
      CleanItemValue(items[i]);
    }
    forall k | 0 <= k < |r| ensures Lower(r[k]) == r[k] {
      LowerOfLowerCase(r[k]);
    }
  }

  /** Parsing keeps order: two lists written one after the other, with a comma between, parse one after the other. */
  lemma ParseListConcat(s: string, t: string)
    ensures ParseList(s + "," + t) == ParseList(s) + ParseList(t)
  {
    SplitConcat(s, t, ',');
    var a, b := Split(s, ','), Split(t, ',');
    assert Split(s + "," + t, ',') == a + b;
    assert Slots(a + b) == Slots(a) + Slots(b);
    SomesConcat(Slots(a), Slots(b));
  }

  /** Writing clean items with commas between them and parsing the text gives back the items, in order. */
  lemma ParseJoined(items: seq<string>)
    requires |items| >= 1 && forall k :: 0 <= k < |items| ==> IsCleanItem(items[k])
    ensures ParseList(Join(items, ',')) == items
  {
    forall k | 0 <= k < |items| ensures ',' !in items[k] {
      assert forall i :: 0 <= i < |items[k]| ==> items[k][i] != ',';
    }
    SplitJoin(items, ',');
    var slots := Slots(items);
    forall k | 0 <= k < |items| ensures slots[k] == Some(items[k]) {
      CleanItemValue(items[k]);
    }
    SomesAll(slots, items);
    assert ParseList(Join(items, ',')) == Somes(slots);
  }

  /** A name of lower-case letters and underscores is a clean item. */
  lemma NameIsClean(x: string)
    requires x != [] && forall i :: 0 <= i < |x| ==> IsLower(x[i]) || x[i] == '_'
    ensures IsCleanItem(x)
  {
  }

  /** The names of the default options are clean items. */
  lemma DefaultItemsClean()
    ensures forall k :: 0 <= k < |SCORE_PARTS| ==> IsCleanItem(SCORE_PARTS[k])
    ensures IsCleanItem("midi") && IsCleanItem("musicxml")
  {
    NameIsClean("lead_vocal");
    NameIsClean("backing_vocal");
    NameIsClean("bass");
    NameIsClean("drums");
    NameIsClean("backing_harmony");
    NameIsClean("chords");
    NameIsClean("midi");
    NameIsClean("musicxml");
  }

  /** The default options name the six parts and the two formats, in that order. */
  lemma Defaults(partsOption: string, formatOption: string)
    requires partsOption == DEFAULT_PARTS && formatOption == DEFAULT_FORMATS
    ensures ParseList(partsOption) == SCORE_PARTS
    ensures ParseList(formatOption) == ["midi", "musicxml"]
  {
    DefaultItemsClean();
    ParseJoined(SCORE_PARTS);
    ParseJoined(["midi", "musicxml"]);
  }

  /** Text without a comma is a single item. */
  lemma SingleItem(x: string)
    requires ',' !in x
    ensures ParseList(x) == Kept(CleanItem(x))
  {
    SplitJoin([x], ',');
    assert Split(x, ',') == [x];
    assert Slots([x]) == [CleanItem(x)];
    assert Somes([CleanItem(x)]) == Kept(CleanItem(x)) + Somes([CleanItem(x)][1..]);
  }

  /** The information separator `\x1f` is whitespace to `strip()`, so an item made of it is blank. */
  lemma BlankSeparator(b: string)
    requires b == "\U{001F}"
    ensures ParseList(b) == []
  {
    SingleItem(b);
    CleanItemValue(b);
  }

  /** A padded name is stripped and lower-cased. */
  lemma PaddedName(a: string)
    requires a == " Bass "
    ensures ParseList(a) == ["bass"]
  {
    SingleItem(a);
    assert LeadingSpaces(a) == 1 && a[1..] == "Bass ";
    assert TrailingSpaces("Bass ") == 1 && "Bass "[..4] == "Bass";
    assert Strip(a) == "Bass";
    assert Lower("Bass") == "bass";
  }

  /** `" Bass ,\x1f"` gives the one part `bass`: the separator item is blank and dropped. */
  lemma SeparatorsAreBlank(a: string, b: string)
    requires a == " Bass " && b == "\U{001F}"
    ensures ParseList(b) == []
    ensures ParseList(a + "," + b) == ["bass"]
  {
    BlankSeparator(b);
    PaddedName(a);
    ParseListConcat(a, b);
  }
}
