/**
 * The chart wrappers of src/components/ui/chart.tsx: `ChartContainer`, which
 * turns the series configuration into CSS custom properties through
 * `split(':')` and `trim()`, and `ChartTooltipContent`/`ChartTooltip`, which
 * label and format the rows of a tooltip.
 */
module Chart {
  import opened Js

  /** One `[key, { label, color }]` pair of `Object.entries(config)`. */
  datatype ConfigEntry = ConfigEntry(key: string, labelText: string, color: string)

  // ---------------------------------------------------------------- split

  /** `s.split(sep)` for a one-character separator: never empty. */
  function Split(s: string, sep: char): (parts: seq<string>)
    ensures |parts| >= 1
    ensures |parts| == 1 <==> sep !in s
    ensures forall i :: 0 <= i < |parts| ==> sep !in parts[i]
  {
    if s == [] then [""]
    else
      var rest := Split(s[1..], sep);
      if s[0] == sep then [""] + rest
      else [[s[0]] + rest[0]] + rest[1..]
  }

  /** `parts.join(sep)`. */
  function Join(parts: seq<string>, sep: char): string
    requires |parts| >= 1
  {
    if |parts| == 1 then parts[0] else parts[0] + [sep] + Join(parts[1..], sep)
  }

  /** Joining the pieces of a split gives back the string. */
  lemma {:induction false} JoinSplit(s: string, sep: char)
    ensures Join(Split(s, sep), sep) == s
  {
    if s != [] {
      JoinSplit(s[1..], sep);
      var rest := Split(s[1..], sep);
      if s[0] == sep {
        assert ([""] + rest)[1..] == rest;
      } else {
        var parts := [[s[0]] + rest[0]] + rest[1..];
        if |rest| == 1 {
          assert parts == [[s[0]] + rest[0]];
        } else {
          assert parts[1..] == rest[1..];
          assert Join(rest, sep) == rest[0] + [sep] + Join(rest[1..], sep);
        }
      }
    }
  }

  /** Splitting at the first separator: the text before it is the first piece. */
  lemma {:induction false} SplitAtFirst(a: string, b: string, sep: char)
    requires sep !in a
    ensures Split(a + [sep] + b, sep) == [a] + Split(b, sep)
  {
    if a == [] {
      assert a + [sep] + b == [sep] + b;
      assert ([sep] + b)[1..] == b;
    } else {
      SplitAtFirst(a[1..], b, sep);
      assert (a + [sep] + b)[1..] == a[1..] + [sep] + b;
      assert [a[0]] + a[1..] == a;
    }
  }

  /** A string without the separator splits into itself. */
  lemma {:induction false} SplitWithout(s: string, sep: char)
    requires sep !in s
    ensures Split(s, sep) == [s]
  {
    if s != [] {
      assert sep !in s[1..];
      SplitWithout(s[1..], sep);
      assert [s[0]] + s[1..] == s;
    }
  }

  // ----------------------------------------------------------------- trim

  /** The white space and line terminators `trim()` removes (the common ones). */
  predicate IsWhitespace(c: char) {
    c in {' ', '\t', '\n', '\r', '\U{000B}', '\U{000C}', '\U{00A0}', '\U{2028}', '\U{2029}', '\U{FEFF}'}
  }

  /** `s.trimStart()` */
  function TrimStart(s: string): (r: string)
    ensures |r| <= |s| && r == s[|s| - |r|..]
    ensures r == [] || !IsWhitespace(r[0])
    ensures forall i :: 0 <= i < |s| - |r| ==> IsWhitespace(s[i])
  {
    if s != [] && IsWhitespace(s[0]) then TrimStart(s[1..]) else s
  }

  /** `s.trimEnd()` */
  function TrimEnd(s: string): (r: string)
    ensures |r| <= |s| && r == s[..|r|]
    ensures r == [] || !IsWhitespace(r[|r| - 1])
    ensures forall i :: |r| <= i < |s| ==> IsWhitespace(s[i])
  {
    if s != [] && IsWhitespace(s[|s| - 1]) then TrimEnd(s[..|s| - 1]) else s
  }

  /** `s.trim()`: `s` without white space at either end. */
  function Trim(s: string): (r: string)
    ensures |r| <= |s|
    ensures r == [] || (!IsWhitespace(r[0]) && !IsWhitespace(r[|r| - 1]))
    ensures (forall i :: 0 <= i < |s| ==> IsWhitespace(s[i])) ==> r == []
  {
    TrimEnd(TrimStart(s))
  }

  predicate AllWhitespace(s: string) {
    forall i :: 0 <= i < |s| ==> IsWhitespace(s[i])
  }

  lemma {:induction false} TrimStartOf(lead: string, rest: string)
    requires AllWhitespace(lead) && rest != [] && !IsWhitespace(rest[0])
    ensures TrimStart(lead + rest) == rest
  {
    if lead != [] {
      assert (lead + rest)[1..] == lead[1..] + rest;
      TrimStartOf(lead[1..], rest);
    }
  }

  lemma {:induction false} TrimEndOf(rest: string, trail: string)
    requires AllWhitespace(trail) && rest != [] && !IsWhitespace(rest[|rest| - 1])
    ensures TrimEnd(rest + trail) == rest
  {
    if trail != [] {
      var shorter := trail[..|trail| - 1];
      assert (rest + trail)[..|rest + trail| - 1] == rest + shorter;
      TrimEndOf(rest, shorter);
    }
  }

  /**
   * `trim()` keeps exactly the middle: text with no white space at its ends,
   * surrounded by white space only, trims to itself.
   */
  lemma TrimKeepsMiddle(lead: string, middle: string, trail: string)
    requires AllWhitespace(lead) && AllWhitespace(trail)
    requires middle != [] && !IsWhitespace(middle[0]) && !IsWhitespace(middle[|middle| - 1])
    ensures Trim(lead + middle + trail) == middle
  {
    assert lead + middle + trail == lead + (middle + trail);
    TrimStartOf(lead, middle + trail);
    TrimEndOf(middle, trail);
  }

  /** Leading white space does not change what `trim()` keeps. */
  lemma TrimLeadingSpace(s: string)
    ensures Trim([' '] + s) == Trim(s)
  {
    assert ([' '] + s)[1..] == s;
  }

  // ---------------------------------------------------------- style map

  /** The custom property a config entry yields: `` `--color-${key}: ${color}` ``. */
  function StyleOf(entry: ConfigEntry): (style: string)
    ensures ':' in style
  {
    var style := "--color-" + entry.key + ": " + entry.color;
    assert style[|"--color-" + entry.key|] == ':';
    style
  }

  function Styles(config: seq<ConfigEntry>): (styles: seq<string>)
    ensures |styles| == |config|
    ensures forall i :: 0 <= i < |config| ==> styles[i] == StyleOf(config[i])
  {
    seq(|config|, i requires 0 <= i < |config| => StyleOf(config[i]))
  }

  /** `style.split(':')[0]` */
  function PropertyOf(style: string): string {
    Split(style, ':')[0]
  }

  /** `style.split(':')[1].trim()`, which exists because the style holds a ':'. */
  function ValueOf(style: string): string
    requires ':' in style
  {
    Trim(Split(style, ':')[1])
  }

  /** The `reduce` over the styles: each spreads the object so far and sets one property. */
  function StyleMap(styles: seq<string>): (m: map<string, string>)
    requires forall i :: 0 <= i < |styles| ==> ':' in styles[i]
    ensures forall p :: p in m <==> exists i :: 0 <= i < |styles| && PropertyOf(styles[i]) == p
    ensures |m.Keys| <= |styles|
  {
    if styles == [] then map[]
    else
      var last := styles[|styles| - 1];
      var before := StyleMap(styles[..|styles| - 1]);
      assert forall i :: 0 <= i < |styles| - 1 ==> styles[..|styles| - 1][i] == styles[i];
      var m := before[PropertyOf(last) := ValueOf(last)];
      assert m.Keys <= before.Keys + {PropertyOf(last)};
      CardinalityOfUnion(before.Keys, PropertyOf(last));
      m
  }

  lemma CardinalityOfUnion(keys: set<string>, p: string)
    ensures |keys + {p}| <= |keys| + 1
  {
    if p !in keys {
      assert |keys + {p}| == |keys| + 1;
    } else {
      assert keys + {p} == keys;
    }
  }

  /** The `style` object of the container. */
  function ContainerStyle(config: seq<ConfigEntry>): map<string, string> {
    StyleMap(Styles(config))
  }

  /** A later style with the same property overrides an earlier one: the last one wins. */
  lemma {:induction false} LastStyleWins(styles: seq<string>, j: nat)
    requires forall i :: 0 <= i < |styles| ==> ':' in styles[i]
    requires j < |styles|
    requires forall k :: j < k < |styles| ==> PropertyOf(styles[k]) != PropertyOf(styles[j])
    ensures PropertyOf(styles[j]) in StyleMap(styles)
    ensures StyleMap(styles)[PropertyOf(styles[j])] == ValueOf(styles[j])
  {
    if j < |styles| - 1 {
      var before := styles[..|styles| - 1];
      assert forall i :: 0 <= i < |before| ==> before[i] == styles[i];
      LastStyleWins(before, j);
    }
  }

  /** What a config entry's style splits into on ':'. */
  lemma SplitStyle(entry: ConfigEntry)
    requires ':' !in entry.key
    ensures PropertyOf(StyleOf(entry)) == "--color-" + entry.key
    ensures Split(StyleOf(entry), ':')[1] == " " + Split(entry.color, ':')[0]
  {
    var name := "--color-" + entry.key;
    assert ':' !in "--color-";
    assert StyleOf(entry) == name + [':'] + (" " + entry.color);
    SplitAtFirst(name, " " + entry.color, ':');
    var rest := Split(entry.color, ':');
    assert Split(" " + entry.color, ':') == [" " + rest[0]] + rest[1..] by {
      assert (" " + entry.color)[1..] == entry.color;
    }
  }

  /**
   * An entry whose key holds no ':', and whose property no later entry
   * repeats, sets `--color-<key>` to the part of its colour before the first
   * ':', trimmed.
   */
  lemma EntryValue(config: seq<ConfigEntry>, j: nat)
    requires j < |config|
    requires ':' !in config[j].key
    requires forall k :: j < k < |config| ==> PropertyOf(StyleOf(config[k])) != "--color-" + config[j].key
    ensures var property := "--color-" + config[j].key;
      property in ContainerStyle(config) && ContainerStyle(config)[property] == Trim(Split(config[j].color, ':')[0])
  {
    var styles := Styles(config);
    var property := "--color-" + config[j].key;
    SplitStyle(config[j]);
    assert PropertyOf(styles[j]) == property;
    assert forall k :: j < k < |styles| ==> PropertyOf(styles[k]) != property;
    LastStyleWins(styles, j);
    TrimLeadingSpace(Split(config[j].color, ':')[0]);
  }

  /** An entry whose key and colour hold no ':' sets `--color-<key>` to its whole colour, trimmed. */
  lemma ColonFreeEntry(config: seq<ConfigEntry>, j: nat)
    requires j < |config|
    requires ':' !in config[j].key && ':' !in config[j].color
    requires forall k :: j < k < |config| ==> PropertyOf(StyleOf(config[k])) != "--color-" + config[j].key
    ensures var property := "--color-" + config[j].key;
      property in ContainerStyle(config) && ContainerStyle(config)[property] == Trim(config[j].color)
  {
    EntryValue(config, j);
    SplitWithout(config[j].color, ':');
  }

  /** A colour holding a ':' is cut at it: only the text before the first ':' is kept. */
  lemma ColonInColourTruncates(config: seq<ConfigEntry>, j: nat, before: string, after: string)
    requires j < |config|
    requires ':' !in config[j].key && ':' !in before && config[j].color == before + [':'] + after
    requires forall k :: j < k < |config| ==> PropertyOf(StyleOf(config[k])) != "--color-" + config[j].key
    ensures var property := "--color-" + config[j].key;
      property in ContainerStyle(config) && ContainerStyle(config)[property] == Trim(before)
  {
    EntryValue(config, j);
    SplitAtFirst(before, after, ':');
  }

  /** With colon-free colours and keys and no key repeated, every entry has its property. */
  lemma ColonFreeConfig(config: seq<ConfigEntry>)
    requires forall i :: 0 <= i < |config| ==> ':' !in config[i].key && ':' !in config[i].color
    requires forall i, k :: 0 <= i < k < |config| ==> config[i].key != config[k].key
    ensures forall i :: 0 <= i < |config| ==>
      var property := "--color-" + config[i].key;
      property in ContainerStyle(config) && ContainerStyle(config)[property] == Trim(config[i].color)
  {
    forall j | 0 <= j < |config|
      ensures var property := "--color-" + config[j].key;
        property in ContainerStyle(config) && ContainerStyle(config)[property] == Trim(config[j].color)
    {
      forall k | j < k < |config|
        ensures PropertyOf(StyleOf(config[k])) != "--color-" + config[j].key
      {
        SplitStyle(config[k]);
        assert ("--color-" + config[k].key)[8..] == config[k].key;
        assert ("--color-" + config[j].key)[8..] == config[j].key;
      }
      ColonFreeEntry(config, j);
    }
  }

  // -------------------------------------------------------------- tooltip

  /** One `{ value, name }` of the tooltip's payload. */
  datatype PayloadItem = PayloadItem(name: string, value: real)

  /** What a row shows as its value: the formatter's text, or the raw number. */
  datatype ValueText = Formatted(text: string) | Raw(value: real)

  datatype Row = Row(labelText: string, color: Option<string>, value: ValueText)

  datatype Tooltip = Tooltip(header: Option<string>, rows: seq<Row>)

  /** `config?.[name]`: the entry for a series, if the config has one. */
  function Lookup(config: Option<seq<ConfigEntry>>, name: string): (e: Option<ConfigEntry>)
    ensures e.Some? <==> config.Some? && exists i :: 0 <= i < |config.value| && config.value[i].key == name
    ensures e.Some? ==> e.value in config.value && e.value.key == name
  {
    if config.None? then None else LookupIn(config.value, name)
  }

  function LookupIn(entries: seq<ConfigEntry>, name: string): (e: Option<ConfigEntry>)
    ensures e.Some? <==> exists i :: 0 <= i < |entries| && entries[i].key == name
    ensures e.Some? ==> e.value in entries && e.value.key == name
  {
    if entries == [] then None
    else if entries[0].key == name then Some(entries[0])
    else
      var e := LookupIn(entries[1..], name);
      assert forall i :: 1 <= i < |entries| ==> entries[i] == entries[1..][i - 1];
      e
  }

  /** A payload item's row: the configured label and colour, else its name and no colour. */
  function RowOf(item: PayloadItem, config: Option<seq<ConfigEntry>>, formatter: Option<real -> string>): (row: Row)
    ensures Lookup(config, item.name).Some? ==>
      row.labelText == Lookup(config, item.name).value.labelText && row.color == Some(Lookup(config, item.name).value.color)
    ensures Lookup(config, item.name).None? ==> row.labelText == item.name && row.color.None?
    ensures formatter.Some? ==> row.value == Formatted(formatter.value(item.value))
    ensures formatter.None? ==> row.value == Raw(item.value)
  {
    var entry := Lookup(config, item.name);
    var labelText := if entry.Some? then entry.value.labelText else item.name;
    var color := if entry.Some? then Some(entry.value.color) else None;
    Row(labelText, color, if formatter.Some? then Formatted(formatter.value(item.value)) else Raw(item.value))
  }

  /** `ChartTooltipContent`: nothing unless active with a payload, else one row per item. */
  function TooltipContent(
    active: bool, payload: Option<seq<PayloadItem>>, header: Option<string>,
    config: Option<seq<ConfigEntry>>, formatter: Option<real -> string>): (t: Option<Tooltip>)
    ensures t.None? <==> !active || payload.None?
    ensures t.Some? ==> t.value.header == header && |t.value.rows| == |payload.value|
    ensures t.Some? ==> forall i :: 0 <= i < |payload.value| ==> t.value.rows[i] == RowOf(payload.value[i], config, formatter)
  {
    if !active || payload.None? then None
    else Some(Tooltip(header, seq(|payload.value|, i requires 0 <= i < |payload.value| => RowOf(payload.value[i], config, formatter))))
  }

  /**
   * `ChartTooltip`: the content with a formatter that appends "%" to the
   * number's text; `numberText` is JavaScript's conversion of a number to a string.
   */
  function ChartTooltip(
    active: bool, payload: Option<seq<PayloadItem>>, header: Option<string>,
    config: Option<seq<ConfigEntry>>, numberText: real -> string): (t: Option<Tooltip>)
    ensures t.None? <==> !active || payload.None?
    ensures t.Some? ==> |t.value.rows| == |payload.value|
    ensures t.Some? ==> forall i :: 0 <= i < |payload.value| ==>
      t.value.rows[i].value == Formatted(numberText(payload.value[i].value) + "%")
  {
    TooltipContent(active, payload, header, config, Some(x => numberText(x) + "%"))
  }
}
