/**
 * The DAQ window (jackfish/gui/daq_controller.py): the channel-spec
 * parser behind the read and trigger channel fields, the preset loader's
 * list joining, the Standby/Recording/Previewing status machine with its
 * widget gating and close handling, and the de-interleaving of one
 * channel from the driver's preview buffer.
 */
module DaqController {
  import opened Common
  import opened PyText
  import opened LabJackStream

  // ---------------------------------------------------------------------
  // Channel-spec parser (lines 187-225)
  // ---------------------------------------------------------------------

  /** The assertion that stops a parse. */
  datatype ChannelError =
    | UnclosedNickname     // a '<' without any '>'
    | ClosingBeforeOpening // the first '>' comes before the first '<'
    | StrayClosing         // a '>' without any '<'
    | DuplicateChannel     // the channel name is already in the map
    | DuplicateNickname    // the nickname is already a value of the map

  datatype ItemResult = Item(name: string, nickname: string) | ItemError(error: ChannelError)

  /** One comma-separated field: `name <nickname>` or a bare name. */
  function ParseItem(cc: string): (r: ItemResult)
    ensures r.Item? ==> ' ' !in r.name && '<' !in r.name && '>' !in r.name
    ensures r.Item? && '<' !in cc ==> r.nickname == r.name
    ensures r.Item? ==> '>' !in r.nickname
    ensures '<' !in cc && '>' !in cc ==> r == Item(Despace(cc), Despace(cc))
    ensures r.ItemError? ==> r.error.UnclosedNickname? || r.error.ClosingBeforeOpening? || r.error.StrayClosing?
  {
    var open := Find(cc, '<');
    var close := Find(cc, '>');
    if open != -1 then
      if close == -1 then ItemError(UnclosedNickname)
      else if close <= open then ItemError(ClosingBeforeOpening)
      else
        assert cc[..close][open + 1..] == cc[open + 1..close];
        Item(Despace(cc[..open]), cc[open + 1..close])
    else if close != -1 then ItemError(StrayClosing)
    else Item(Despace(cc), Despace(cc))
  }

  /**
   * Which assertion rejects a field: a `<` with no `>` anywhere, a `>`
   * before the first `<`, or a `>` with no `<`. Every other field parses.
   */
  lemma ParseItemRejects(cc: string)
    ensures ParseItem(cc) == ItemError(UnclosedNickname) <==> '<' in cc && '>' !in cc
    ensures ParseItem(cc) == ItemError(ClosingBeforeOpening) <==> '<' in cc && '>' in cc[..Find(cc, '<')]
    ensures ParseItem(cc) == ItemError(StrayClosing) <==> '<' !in cc && '>' in cc
    ensures ParseItem(cc).Item? <==> ('<' in cc <==> '>' in cc) && ('<' in cc ==> '>' !in cc[..Find(cc, '<')])
  {
    var open, close := Find(cc, '<'), Find(cc, '>');
    if open != -1 && close != -1 {
      if close < open {
        assert cc[..open][close] == '>';
      }
    }
  }

  /**
   * A field `a<b>c` whose name part has no bracket and whose nickname has
   * no `>`: the name is `a` without spaces, the nickname is `b` as it
   * stands, and whatever follows the first `>` is dropped.
   */
  lemma ParseItemSplits(a: string, b: string, c: string)
    requires '<' !in a && '>' !in a && '>' !in b
    ensures ParseItem(a + "<" + b + ">" + c) == Item(Despace(a), b)
  {
    var cc := a + "<" + b + ">" + c;
    var open, close := |a|, |a| + 1 + |b|;
    assert cc[..open] == a;
    assert cc[..close] == a + "<" + b;
    FindFirst(cc, '<', open);
    FindFirst(cc, '>', close);
    assert cc[open + 1..close] == b;
  }

  /** The map built so far and the assertion that stopped the loop, if any. */
  datatype ParseOutcome = ParseOutcome(chans: Dict, error: Option<ChannelError>)

  /**
   * The loop over the fields: each parsed field is appended unless its
   * name is already a key or its nickname already a value. A failure
   * leaves the map as it was before that field.
   */
  function ParseItems(items: seq<string>): (r: ParseOutcome)
    ensures IsDict(r.chans) && Distinct(Values(r.chans))
    ensures |r.chans| <= |items|
    ensures r.error.None? ==> |r.chans| == |items|
    decreases |items|
  {
    if items == [] then ParseOutcome([], None)
    else
      var prev := ParseItems(items[..|items| - 1]);
      if prev.error.Some? then prev
      else
        match ParseItem(items[|items| - 1])
        case ItemError(e) => ParseOutcome(prev.chans, Some(e))
        case Item(name, nick) =>
          if name in Keys(prev.chans) then ParseOutcome(prev.chans, Some(DuplicateChannel))
          else if nick in Values(prev.chans) then ParseOutcome(prev.chans, Some(DuplicateNickname))
          else
            AppendKeepsDistinct(prev.chans, name, nick);
            ParseOutcome(prev.chans + [(name, nick)], None)
  }

  lemma AppendKeepsDistinct(d: Dict, name: string, nick: string)
    requires IsDict(d) && Distinct(Values(d)) && name !in Keys(d) && nick !in Values(d)
    ensures IsDict(d + [(name, nick)]) && Distinct(Values(d + [(name, nick)]))
  {
    assert Keys(d + [(name, nick)]) == Keys(d) + [name];
    assert Values(d + [(name, nick)]) == Values(d) + [nick];
  }

  /** `text.split(',')` then the loop. */
  function ParseChannels(text: string): ParseOutcome
  {
    ParseItems(Split(text, ','))
  }

  /** A field that fails to parse, or repeats a name or a nickname, stops the loop with the map as it was. */
  lemma ParseReject(init: seq<string>, item: string, d: Dict, e: ChannelError)
    requires ParseItems(init) == ParseOutcome(d, None)
    requires var r := ParseItem(item);
             (r.ItemError? && e == r.error)
             || (r.Item? && r.name in Keys(d) && e == DuplicateChannel)
             || (r.Item? && r.name !in Keys(d) && r.nickname in Values(d) && e == DuplicateNickname)
    ensures ParseItems(init + [item]) == ParseOutcome(d, Some(e))
  {
    assert (init + [item])[..|init|] == init;
  }

  /** Entry i of `d` is what field i parses to. */
  predicate ParsedAs(items: seq<string>, d: Dict)
  {
    |d| == |items| && forall i :: 0 <= i < |items| ==> ParseItem(items[i]) == Item(d[i].0, d[i].1)
  }

  /** Entries for all fields but the last, plus the last field's entry, are entries for all fields. */
  lemma ParsedAsLast(items: seq<string>, d: Dict, e: Dict)
    requires items != [] && ParsedAs(items[..|items| - 1], d)
    requires var last := ParseItem(items[|items| - 1]); last.Item? && e == d + [(last.name, last.nickname)]
    ensures ParsedAs(items, e)
  {
    var k := |items| - 1;
    forall i | 0 <= i < |items|
      ensures ParseItem(items[i]) == Item(e[i].0, e[i].1)
    {
      if i < k {
        assert items[..k][i] == items[i] && e[i] == d[i];
      }
    }
  }

  /** A successful parse keeps the fields' order: entry i is what field i parses to. */
  lemma {:induction false} ParseKeepsOrder(items: seq<string>)
    requires ParseItems(items).error.None?
    ensures ParsedAs(items, ParseItems(items).chans)
    decreases |items|
  {
    if items != [] {
      var init := items[..|items| - 1];
      ParseLast(items);
      ParseKeepsOrder(init);
      ParsedAsLast(items, ParseItems(init).chans, ParseItems(items).chans);
    }
  }

  /** A successful parse is the parse of all but the last field, plus the last field's entry. */
  lemma ParseLast(items: seq<string>)
    requires items != [] && ParseItems(items).error.None?
    ensures var k := |items| - 1;
            var prev, last := ParseItems(items[..k]), ParseItem(items[k]);
            prev.error.None? && last.Item? && ParseItems(items).chans == prev.chans + [(last.name, last.nickname)]
  {
    var k := |items| - 1;
    var prev, last := ParseItems(items[..k]), ParseItem(items[k]);
    assert prev.error.None?;
    assert last.Item?;
    assert last.name !in Keys(prev.chans) && last.nickname !in Values(prev.chans);
  }

  /** Appending a field that parses to a fresh name and a fresh nickname appends its entry. */
  lemma ParseAppend(init: seq<string>, item: string, d: Dict, name: string, nick: string)
    requires ParseItems(init) == ParseOutcome(d, None)
    requires ParseItem(item) == Item(name, nick) && name !in Keys(d) && nick !in Values(d)
    ensures ParseItems(init + [item]) == ParseOutcome(d + [(name, nick)], None)
  {
    assert (init + [item])[..|init|] == init;
  }

  /**
   * Fields that parse without error into distinct names and distinct
   * nicknames give exactly those entries, in order.
   */
  lemma {:induction false} ParseAccepts(items: seq<string>, d: Dict)
    requires ParsedAs(items, d) && IsDict(d) && Distinct(Values(d))
    ensures ParseItems(items) == ParseOutcome(d, None)
    decreases |items|
  {
    if items != [] {
      var k := |items| - 1;
      var init, dInit := items[..k], d[..k];
      assert Keys(dInit) == Keys(d)[..k];
      assert Values(dInit) == Values(d)[..k];
      assert ParsedAs(init, dInit) by {
        assert forall i :: 0 <= i < k ==> init[i] == items[i] && dInit[i] == d[i];
      }
      ParseAccepts(init, dInit);
      assert d[k].0 !in Keys(dInit) by {
        assert forall i :: 0 <= i < k ==> Keys(d)[i] != Keys(d)[k];
      }
      assert d[k].1 !in Values(dInit) by {
        assert forall i :: 0 <= i < k ==> Values(d)[i] != Values(d)[k];
      }
      ParseAppend(init, items[k], dInit, d[k].0, d[k].1);
      assert init + [items[k]] == items;
      assert dInit + [(d[k].0, d[k].1)] == d;
    }
  }

  /** An empty field yields the single entry `"" -> ""`. */
  lemma EmptyFieldParses()
    ensures ParseChannels("") == ParseOutcome([("", "")], None)
  {
    assert Split("", ',') == [""];
    assert ParseItem("") == Item("", "");
    assert [""][..0] == [];
  }

  /** A name with nothing the parser treats specially. */
  predicate PlainName(s: string)
  {
    ' ' !in s && ',' !in s && '<' !in s && '>' !in s
  }

  /** A bare name, with or without leading spaces, parses to itself. */
  lemma BareNameParses(pad: string, name: string)
    requires forall i :: 0 <= i < |pad| ==> pad[i] == ' '
    requires PlainName(name)
    ensures ParseItem(pad + name) == Item(name, name)
  {
    DespaceAppend(pad, name);
    DespaceOnlySpaces(pad);
  }

  lemma {:induction false} DespaceOnlySpaces(pad: string)
    requires forall i :: 0 <= i < |pad| ==> pad[i] == ' '
    ensures Despace(pad) == ""
  {
    if pad != [] {
      DespaceOnlySpaces(pad[1..]);
    }
  }

  /** A drop-down entry `name <nickname>` parses back to its channel and nickname. */
  lemma NicknamedParses(name: string, nick: string)
    requires ' ' !in name && '<' !in name && '>' !in name && '>' !in nick
    ensures ParseItem(name + " <" + nick + ">") == Item(name, nick)
  {
    EntryShape(name, nick);
    ParseItemSplits(name + " ", nick, "");
    TrailingSpaceDropped(name);
  }

  /** `name <nick>` read as `a<b>c` with `a` the name and its space; the space adds no bracket. */
  lemma EntryShape(name: string, nick: string)
    requires '<' !in name && '>' !in name
    ensures '<' !in name + " " && '>' !in name + " "
    ensures name + " <" + nick + ">" == (name + " ") + "<" + nick + ">" + ""
  {
    var a := name + " ";
    assert forall i :: 0 <= i < |a| ==> a[i] == ' ' || a[i] == name[i];
  }

  lemma TrailingSpaceDropped(name: string)
    requires ' ' !in name
    ensures Despace(name + " ") == name
  {
    DespaceAppend(name, " ");
    assert Despace(" ") == "";
  }

  /** The `", ".join` pieces as `split(',')` sees them: every piece after the first has a leading space. */
  function Padded(names: seq<string>): (items: seq<string>)
    requires |names| >= 1
    ensures |items| == |names| && items[0] == names[0]
    ensures forall i :: 1 <= i < |names| ==> items[i] == " " + names[i]
  {
    [names[0]] + seq(|names| - 1, i requires 0 <= i < |names| - 1 => " " + names[i + 1])
  }

  lemma {:induction false} JoinPadded(names: seq<string>)
    requires |names| >= 1
    ensures Join(names, ", ") == Join(Padded(names), ",")
    decreases |names|
  {
    if |names| > 1 {
      JoinPadded(names[1..]);
      var rest := Padded(names[1..]);
      var p := Padded(names);
      assert p[1..] == [" " + names[1]] + rest[1..];
      assert Join(p[1..], ",") == " " + Join(names[1..], ", ") by {
        if |names| > 2 {
          JoinCons(" " + names[1], rest[1..], ",");
          JoinCons(names[1], rest[1..], ",");
          assert rest == [names[1]] + rest[1..];
        }
      }
      assert Join(names, ", ") == names[0] + ", " + Join(names[1..], ", ");
      assert Join(p, ",") == p[0] + "," + Join(p[1..], ",");
    }
  }

  /** The identity map of distinct names. */
  function Identity(names: seq<string>): (d: Dict)
    ensures |d| == |names| && forall i :: 0 <= i < |names| ==> d[i] == (names[i], names[i])
  {
    seq(|names|, i requires 0 <= i < |names| => (names[i], names[i]))
  }

  /** `", ".join` of a preset list, or the preset text itself. */
  datatype PresetField = PresetText(text: string) | PresetList(names: seq<string>)

  function FieldText(f: PresetField): string
  {
    match f
    case PresetText(text) => text
    case PresetList(names) => Join(names, ", ")
  }

  /** Splitting a `", "`-joined list of plain names on `','` gives the padded pieces. */
  lemma SplitPreset(names: seq<string>)
    requires |names| >= 1 && forall i :: 0 <= i < |names| ==> PlainName(names[i])
    ensures Split(Join(names, ", "), ',') == Padded(names)
  {
    var items := Padded(names);
    JoinPadded(names);
    forall i | 0 <= i < |items| ensures ',' !in items[i] {
      if i > 0 {
        NoCommaPadded(names[i]);
      }
    }
    SplitJoin(items, ',');
  }

  lemma NoCommaPadded(name: string)
    requires ',' !in name
    ensures ',' !in " " + name
  {
    var p := " " + name;
    assert forall j :: 1 <= j < |p| ==> p[j] == name[j - 1];
  }

  /** Every padded piece parses to its name mapped to itself. */
  lemma PaddedPiecesParse(names: seq<string>)
    requires |names| >= 1 && forall i :: 0 <= i < |names| ==> PlainName(names[i])
    ensures ParsedAs(Padded(names), Identity(names))
  {
    var items := Padded(names);
    forall i | 0 <= i < |items| ensures ParseItem(items[i]) == Item(names[i], names[i]) {
      if i == 0 {
        BareNameParses("", names[0]);
        assert "" + names[0] == names[0];
      } else {
        BareNameParses(" ", names[i]);
      }
    }
  }

  /**
   * A preset list of distinct plain names, joined with `", "` by the preset
   * loader, parses back to the identity map in the same order; an empty
   * list parses to the single entry `"" -> ""`.
   */
  lemma PresetRoundTrip(names: seq<string>)
    requires Distinct(names) && forall i :: 0 <= i < |names| ==> PlainName(names[i])
    ensures names != [] ==> ParseChannels(FieldText(PresetList(names))) == ParseOutcome(Identity(names), None)
    ensures names == [] ==> ParseChannels(FieldText(PresetList(names))) == ParseOutcome([("", "")], None)
  {
    if names == [] {
      EmptyFieldParses();
    } else {
      SplitPreset(names);
      PaddedPiecesParse(names);
      var d := Identity(names);
      assert Keys(d) == names;
      assert Values(d) == names;
      ParseAccepts(Padded(names), d);
    }
  }

  /** Once the fields so far have failed, the rest of the loop never runs. */
  lemma {:induction false} ParseStops(items: seq<string>, i: nat)
    requires i <= |items| && ParseItems(items[..i]).error.Some?
    ensures ParseItems(items) == ParseItems(items[..i])
    decreases |items| - i
  {
    if i < |items| {
      assert items[..i + 1][..i] == items[..i];
      ParseStops(items, i + 1);
    } else {
      assert items[..i] == items;
    }
  }

  /** The parsing loop of `set_chans` / `set_trigger_chans`, building the map in place. */
  method BuildChannels(text: string) returns (chans: Dict, err: Option<ChannelError>)
    ensures ParseOutcome(chans, err) == ParseChannels(text)
  {
    var items := Split(text, ',');
    chans := [];
    var i := 0;
    while i < |items|
      invariant 0 <= i <= |items|
      invariant ParseItems(items[..i]) == ParseOutcome(chans, None)
    {
      assert items[..i + 1] == items[..i] + [items[i]];
      chans, err := AddField(items[..i], items[i], chans);
      assert ParseItems(items[..i + 1]) == ParseOutcome(chans, err);
      if err.Some? {
        ParseStops(items, i + 1);
        assert ParseItems(items) == ParseOutcome(chans, err);
        return;
      }
      i := i + 1;
    }
    assert items[..i] == items;
    err := None;
  }

  /** One turn of the loop: parse the field, then append it or stop with the map unchanged. */
  method AddField(ghost init: seq<string>, field: string, chans: Dict) returns (next: Dict, err: Option<ChannelError>)
    requires ParseItems(init) == ParseOutcome(chans, None)
    ensures ParseItems(init + [field]) == ParseOutcome(next, err)
  {
    var item := ParseItem(field);
    next, err := chans, None;
    if item.ItemError? {
      err := Some(item.error);
    } else if item.name in Keys(chans) {
      err := Some(DuplicateChannel);
    } else if item.nickname in Values(chans) {
      err := Some(DuplicateNickname);
    }
    if err.Some? {
      ParseReject(init, field, chans, err.value);
      return;
    }
    ParseAppend(init, field, chans, item.name, item.nickname);
    next := chans + [(item.name, item.nickname)];
  }

  /** The drop-down entries: `None`, then `name <nickname>` per channel. */
  function DropItems(chans: Dict): (items: seq<string>)
    ensures |items| == |chans| + 1 && items[0] == "None"
    ensures forall i :: 0 <= i < |chans| ==> items[i + 1] == chans[i].0 + " <" + chans[i].1 + ">"
  {
    ["None"] + seq(|chans|, i requires 0 <= i < |chans| => chans[i].0 + " <" + chans[i].1 + ">")
  }

  /** After a successful parse, every drop-down entry after `None` parses back to its channel's entry. */
  lemma DropItemsParseBack(items: seq<string>)
    requires ParseItems(items).error.None?
    ensures var d := ParseItems(items).chans;
            forall i :: 0 <= i < |d| ==> ParseItem(DropItems(d)[i + 1]) == Item(d[i].0, d[i].1)
  {
    var d := ParseItems(items).chans;
    ParseKeepsOrder(items);
    forall i | 0 <= i < |d|
      ensures ParseItem(DropItems(d)[i + 1]) == Item(d[i].0, d[i].1)
    {
      assert ParseItem(items[i]) == Item(d[i].0, d[i].1);
      NicknamedParses(d[i].0, d[i].1);
    }
  }

  // ---------------------------------------------------------------------
  // Preview slicing (lines 248-253)
  // ---------------------------------------------------------------------

  /** `list(buffer)[idx:-1:n]`. */
  function PreviewSeries(buf: seq<real>, idx: int, n: nat): seq<real>
    requires n > 0
  {
    StepSlice(buf, PyIndex(idx, |buf|), PyIndex(-1, |buf|), n)
  }

  /**
   * For a channel index in range, the series is that channel's samples
   * `idx, idx+n, ...` strictly before the buffer's last sample.
   */
  lemma PreviewSeriesIsChannel(buf: seq<real>, idx: nat, n: nat, j: nat)
    requires n > 0 && idx < |buf|
    ensures j < |PreviewSeries(buf, idx, n)| <==> idx + j * n < |buf| - 1
    ensures j < |PreviewSeries(buf, idx, n)| ==> PreviewSeries(buf, idx, n)[j] == buf[idx + j * n]
  {
    StepSliceAt(buf, idx, |buf| - 1, n, j);
  }

  /** The plotted points are the newest `slider_val` points of the series (all of it when shorter). */
  lemma PlottedIsNewest(buf: seq<real>, idx: nat, n: nat, k: nat, i: nat)
    requires n > 0 && idx < |buf|
    requires i < |TakeLast(PreviewSeries(buf, idx, n), k)|
    ensures var s := PreviewSeries(buf, idx, n);
            var j := |s| - |TakeLast(s, k)| + i;
            idx + j * n < |buf| - 1 && TakeLast(s, k)[i] == buf[idx + j * n]
  {
    var s := PreviewSeries(buf, idx, n);
    var j := |s| - |TakeLast(s, k)| + i;
    assert TakeLast(s, k)[i] == s[j];
    PreviewSeriesIsChannel(buf, idx, n, j);
  }

  // ---------------------------------------------------------------------
  // The window
  // ---------------------------------------------------------------------

  /** How many seconds of samples the window asks the driver to keep for preview. */
  const PREVIEW_SECONDS: nat := 15

  /** Every mutable field of the window. */
  datatype WindowView = WindowView(
    status: Status,
    readChanText: string,
    triggerChanText: string,
    inputChannels: Dict,
    triggerChans: Dict,
    dropItems: seq<string>,
    configEnabled: bool,
    previewTimerOn: bool,
    showPreview: bool,
    chanPreviewIdx: int,
    sliderVal: nat,
    scanrate: nat,
    spr: nat,
    data: seq<real>,
    plotted: seq<real>,
    closed: bool)

  /** The state the window keeps between events. */
  predicate WellFormed(v: WindowView)
  {
    IsDict(v.inputChannels) && IsDict(v.triggerChans) && v.configEnabled == (v.status == Standby)
  }

  /**
   * A `QSlider`'s value after `setMinimum(lo)`, `setMaximum(hi)` and
   * `setValue(v)`: a maximum below the minimum pulls the minimum down to
   * it, and the value is clamped into the range.
   */
  function SliderValue(lo: int, hi: int, v: int): (r: int)
    ensures var low := if hi < lo then hi else lo;
            low <= r <= hi && (low <= v <= hi ==> r == v) && (v < low ==> r == low) && (v > hi ==> r == hi)
  {
    var low := if hi < lo then hi else lo;
    if v < low then low else if v > hi then hi else v
  }

  /**
   * The window after `set_chans` (lines 207-228): the map the parse built,
   * and after a full parse the refilled drop-down with the preview ended.
   */
  function ChansSet(v: WindowView): WindowView
  {
    var r := ParseChannels(v.readChanText);
    if r.error.Some? then v.(inputChannels := r.chans)
    else v.(inputChannels := r.chans, dropItems := DropItems(r.chans), showPreview := false, chanPreviewIdx := 0)
  }

  /** The window after `set_trigger_chans` (lines 187-205). */
  function TriggerChansSet(v: WindowView): WindowView
  {
    v.(triggerChans := ParseChannels(v.triggerChanText).chans)
  }

  /** The window and exception after the read field, when present, is written and parsed. */
  function ReadLoaded(v: WindowView, readChs: Option<PresetField>): (WindowView, Option<ChannelError>)
  {
    if readChs.Some? then (ChansSet(v.(readChanText := FieldText(readChs.value))), ReadError(readChs))
    else (v, None)
  }

  /** The exception the read field raises, which depends on the field alone. */
  function ReadError(readChs: Option<PresetField>): Option<ChannelError>
  {
    if readChs.Some? then ParseChannels(FieldText(readChs.value)).error else None
  }

  /** The window once the preset's sample rate, when present, is written. */
  function Rated(v: WindowView, sampleRate: Option<nat>): WindowView
  {
    if sampleRate.Some? then v.(scanrate := sampleRate.value) else v
  }

  /** The window and exception after the trigger field, when present, is written and parsed. */
  function TriggerLoaded(v: WindowView, triggerChs: Option<PresetField>): (WindowView, Option<ChannelError>)
  {
    if triggerChs.Some? then
      var w := TriggerChansSet(v.(triggerChanText := FieldText(triggerChs.value)));
      (w, ParseChannels(w.triggerChanText).error)
    else (v, None)
  }

  /**
   * The window and exception after `parse_attrs_json` on a loaded preset
   * (lines 98-114): each field present is written and parsed in turn, and
   * a read-channel failure skips the trigger channels.
   */
  function AttrsLoaded(v: WindowView, sampleRate: Option<nat>, readChs: Option<PresetField>,
                       triggerChs: Option<PresetField>): (WindowView, Option<ChannelError>)
  {
    var read := ReadLoaded(Rated(v, sampleRate), readChs);
    if read.1.Some? then read else TriggerLoaded(read.0, triggerChs)
  }

  class DaqWindow {
    const daq: LabJack
    var status: Status
    var readChanText: string
    var triggerChanText: string
    var inputChannels: Dict
    var triggerChans: Dict
    var dropItems: seq<string>
    /** Whether the preset button and the rate and channel fields accept input. */
    var configEnabled: bool
    var previewTimerOn: bool
    var showPreview: bool
    var chanPreviewIdx: int
    var sliderVal: nat
    var scanrate: nat
    var spr: nat
    var data: seq<real>
    var plotted: seq<real>
    var closed: bool

    function View(): WindowView
      reads this
    {
      WindowView(status, readChanText, triggerChanText, inputChannels, triggerChans, dropItems, configEnabled,
                 previewTimerOn, showPreview, chanPreviewIdx, sliderVal, scanrate, spr, data, plotted, closed)
    }

    /**
     * The window as `__init__` leaves it, except for the preset load and the
     * parses of the channel fields (lines 54 and 56-57), which the caller
     * performs with `ParseAttrsJson`, `SetChans` and `SetTriggerChans`.
     * `rate` is the rate field's value when line 55 reads it. The slider
     * is then sized to it (lines 74-76), and `set_slider` starts the timer.
     */
    constructor (daq: LabJack, rate: nat)
      ensures WellFormed(View()) && this.daq == daq
      ensures View() == WindowView(Standby, "", "", [], [], [], true, true, false, 0,
                                   SliderValue(2, 10 * rate, rate), rate, 1000, [0.0], [0.0], false)
      ensures sliderVal == if rate == 0 then 0 else if rate < 2 then 2 else rate
    {
      this.daq := daq;
      status := Standby;
      readChanText, triggerChanText := "", "";
      inputChannels, triggerChans, dropItems := [], [], [];
      configEnabled := true;
      previewTimerOn, showPreview, chanPreviewIdx := true, false, 0;
      sliderVal, scanrate, spr := SliderValue(2, 10 * rate, rate), rate, 1000;
      data, plotted := [0.0], [0.0];
      closed := false;
    }

    /** `update_ui`: the configuration widgets accept input exactly in Standby. */
    method UpdateUi()
      modifies this
      ensures View() == old(View()).(configEnabled := status == Standby)
    {
      match status {
        case Recording => configEnabled := false;
        case Previewing => configEnabled := false;
        case Standby => configEnabled := true;
      }
    }

    /**
     * `set_chans`: parse the read field. After a full parse the drop-down
     * is refilled; its `currentIndexChanged` signal runs `set_chan_preview`
     * with -1 when `clear` empties a filled list, then with 0 when the new
     * entries arrive, which ends the preview.
     */
    method SetChans() returns (err: Option<ChannelError>)
      modifies this, daq
      ensures ParseOutcome(inputChannels, err) == ParseChannels(readChanText)
      ensures View() == ChansSet(old(View()))
      ensures daq.Fields() == if err.None? then old(daq.Fields()).(collectDataQ := false) else old(daq.Fields())
      ensures err.None? ==>
                forall i :: 0 <= i < |inputChannels| ==> ParseItem(dropItems[i + 1]) == Item(inputChannels[i].0, inputChannels[i].1)
      ensures WellFormed(old(View())) ==> WellFormed(View())
    {
      inputChannels, err := BuildChannels(readChanText);
      if err.Some? {
        return;
      }
      DropItemsParseBack(Split(readChanText, ','));
      RefillDrop();
    }

    /** Lines 227-228 and the two `currentIndexChanged` signals they raise. */
    method RefillDrop()
      modifies this, daq
      ensures View() == old(View()).(dropItems := DropItems(inputChannels), showPreview := false, chanPreviewIdx := 0)
      ensures daq.Fields() == old(daq.Fields()).(collectDataQ := false)
    {
      if dropItems != [] {
        SetChanPreview(-1);
      }
      dropItems := DropItems(inputChannels);
      SetChanPreview(0);
    }

    /** `set_trigger_chans`: the same rules on the trigger field. */
    method SetTriggerChans() returns (err: Option<ChannelError>)
      modifies this
      ensures ParseOutcome(triggerChans, err) == ParseChannels(triggerChanText)
      ensures View() == TriggerChansSet(old(View()))
      ensures WellFormed(old(View())) ==> WellFormed(View())
    {
      triggerChans, err := BuildChannels(triggerChanText);
    }

    method SetScanrate(rate: nat)
      modifies this
      ensures View() == old(View()).(scanrate := rate)
    {
      scanrate := rate;
    }

    /** `set_slider`: the timer is stopped, the value taken, the timer restarted. */
    method SetSlider(value: nat)
      modifies this
      ensures View() == old(View()).(sliderVal := value, previewTimerOn := true)
    {
      previewTimerOn := false;
      sliderVal := value;
      previewTimerOn := true;
    }

    /**
     * `parse_attrs_json` on a loaded preset: the sample rate, then the read
     * channels, then the trigger channels, a list being joined with `", "`.
     * A parse failure propagates and skips the fields after it.
     */
    method ParseAttrsJson(sampleRate: Option<nat>, readChs: Option<PresetField>, triggerChs: Option<PresetField>)
      returns (err: Option<ChannelError>)
      modifies this, daq
      ensures WellFormed(old(View())) ==> WellFormed(View())
      ensures (View(), err) == AttrsLoaded(old(View()), sampleRate, readChs, triggerChs)
      ensures daq.Fields() == if readChs.Some? && ReadError(readChs).None?
                              then old(daq.Fields()).(collectDataQ := false) else old(daq.Fields())
    {
      if sampleRate.Some? {
        SetScanrate(sampleRate.value);
      }
      assert View() == Rated(old(View()), sampleRate);
      assert WellFormed(old(View())) ==> WellFormed(View());
      err := LoadRead(readChs);
      if err.Some? {
        return;
      }
      err := LoadTrigger(triggerChs);
    }

    /** Lines 109-114: write the trigger field and parse it. */
    method LoadTrigger(triggerChs: Option<PresetField>) returns (err: Option<ChannelError>)
      modifies this
      ensures WellFormed(old(View())) ==> WellFormed(View())
      ensures (View(), err) == TriggerLoaded(old(View()), triggerChs)
    {
      err := None;
      if triggerChs.Some? {
        triggerChanText := FieldText(triggerChs.value);
        err := SetTriggerChans();
      }
    }

    /** Lines 102-107: write the read field and parse it. */
    method LoadRead(readChs: Option<PresetField>) returns (err: Option<ChannelError>)
      modifies this, daq
      ensures WellFormed(old(View())) ==> WellFormed(View())
      ensures (View(), err) == ReadLoaded(old(View()), readChs)
      ensures daq.Fields() == if readChs.Some? && ReadError(readChs).None? then old(daq.Fields()).(collectDataQ := false) else old(daq.Fields())
    {
      err := None;
      if readChs.Some? {
        readChanText := FieldText(readChs.value);
        err := SetChans();
      }
    }

    /**
     * `start`: the status is set before the stream starts, whatever it was
     * (a window that is already active only gets a message), the preview
     * timer runs, and the driver is asked for 15 seconds of preview.
     * `prior` is what the record file already holds, or `None` when it
     * cannot be opened; the exception that raises skips `update_ui`.
     * `reported` is what the device's stream start reports.
     */
    method Start(record: bool, prior: Option<seq<Line>>, reported: Option<nat>) returns (err: Option<StartError>)
      modifies this, daq
      requires IsDict(inputChannels)
      ensures err.Some? <==> |inputChannels| > 0 && record && prior.None?
      ensures View() == old(View()).(status := if record then Recording else Previewing, previewTimerOn := true,
                                     configEnabled := if err.Some? then old(configEnabled) else false)
      ensures daq.Fields() == StartFields(old(daq.Fields()), daq.dataQ, inputChannels, record, prior, scanrate, spr, reported)
      ensures |inputChannels| > 0 ==>
                fresh(daq.dataQ) && daq.dataQ.Length == QueueLength(PREVIEW_SECONDS, scanrate, |inputChannels|)
                && (forall i :: 0 <= i < daq.dataQ.Length ==> daq.dataQ[i] == 0.0)
      ensures daq.Valid()
    {
      previewTimerOn := true;
      status := if record then Recording else Previewing;
      err := daq.StartStream(record, prior, NameMap(inputChannels), scanrate, spr, PREVIEW_SECONDS, reported);
      if err.Some? {
        return;
      }
      UpdateUi();
    }

    /** `stop`: the timer stops, the stream is told to stop, and the window is back in Standby. */
    method Stop()
      modifies this, daq
      ensures View() == old(View()).(status := Standby, configEnabled := true, previewTimerOn := false)
      ensures daq.Snap() == OnStop(old(daq.Snap()))
      ensures daq.Fields() == old(daq.Fields()).(streaming := false)
    {
      previewTimerOn := false;
      daq.StopStream();
      status := Standby;
      UpdateUi();
    }

    /** `set_chan_preview`: entry 0 stops collecting; entry k > 0 previews channel k - 1. */
    method SetChanPreview(index: int)
      modifies this, daq
      ensures index == 0 ==> View() == old(View()).(showPreview := false, chanPreviewIdx := 0)
      ensures index != 0 ==> View() == old(View()).(showPreview := true, chanPreviewIdx := index - 1)
      ensures daq.Snap() == old(daq.Snap()).(collect := index != 0)
      ensures daq.Fields() == old(daq.Fields()).(collectDataQ := index != 0)
    {
      chanPreviewIdx := index;
      if chanPreviewIdx == 0 {
        daq.StopCollectDataQ();
        showPreview := false;
      } else {
        chanPreviewIdx := chanPreviewIdx - 1;
        daq.StartCollectDataQ();
        showPreview := true;
      }
    }

    /**
     * `preview_updater`: the selected channel's samples from the preview
     * buffer, and the newest `slider_val` of them for the plot. With no
     * channels the slice step is zero and the slice raises, so nothing is
     * updated.
     */
    method PreviewUpdater()
      modifies this
      ensures showPreview && |inputChannels| > 0 ==>
                View() == old(View()).(data := PreviewSeries(daq.dataQ[..], chanPreviewIdx, |inputChannels|),
                                       plotted := TakeLast(PreviewSeries(daq.dataQ[..], chanPreviewIdx, |inputChannels|), sliderVal))
      ensures !(showPreview && |inputChannels| > 0) ==> View() == old(View())
    {
      if showPreview {
        var n := |inputChannels|;
        if n == 0 {
          return;
        }
        var series := PreviewSeries(daq.dataQ[..], chanPreviewIdx, n);
        data := series;
        plotted := TakeLast(series, sliderVal);
      }
    }

    /** `closeEvent`: refused while recording or previewing; in Standby the device is closed. */
    method CloseEvent() returns (accepted: bool)
      modifies this, daq
      ensures accepted <==> old(status) == Standby
      ensures accepted ==> View() == old(View()).(closed := true)
                           && daq.Fields() == old(daq.Fields()).(streaming := false, handleOpen := false)
      ensures !accepted ==> View() == old(View()) && daq.Fields() == old(daq.Fields())
      ensures daq.Snap() == if accepted then OnStop(old(daq.Snap())) else old(daq.Snap())
    {
      match status {
        case Recording => accepted := false;
        case Previewing => accepted := false;
        case Standby =>
          daq.Close();
          closed := true;
          accepted := true;
      }
    }
  }
}
