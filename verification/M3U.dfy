/** The channel playlist: the printer that serves it and the parser that reads
    such playlists, written separately, and the proof that the parser undoes the printer. */
module M3U {
  import opened Basics

  // ----- Strings -----

  /** White space as strings.TrimSpace understands it. */
  predicate IsSpace(c: char) {
    || c in "\t\n\U{0B}\U{0C}\r "
    || c in "\U{85}\U{A0}\U{1680}\U{2028}\U{2029}\U{202F}\U{205F}\U{3000}"
    || '\U{2000}' <= c <= '\U{200A}'
  }

  function TrimLeft(s: string): string {
    if s != "" && IsSpace(s[0]) then TrimLeft(s[1..]) else s
  }

  function TrimRight(s: string): (r: string)
    ensures |r| <= |s|
  {
    if s != "" && IsSpace(s[|s| - 1]) then TrimRight(s[..|s| - 1]) else s
  }

  function TrimSpace(s: string): string {
    TrimLeft(TrimRight(s))
  }

  predicate HasSuffix(s: string, t: string) {
    |t| <= |s| && s[|s| - |t|..] == t
  }

  /** The position of the first occurrence of t, or -1. */
  function Index(s: string, t: string): (i: int)
    ensures -1 <= i && (i >= 0 ==> i + |t| <= |s|)
  {
    if |s| < |t| then -1
    else if s[..|t|] == t then 0
    else if s == "" then -1
    else
      var i := Index(s[1..], t);
      if i < 0 then -1 else i + 1
  }

  /** What follows the last comma; all of s if there is none. */
  function AfterComma(s: string): (r: string)
    ensures |r| <= |s|
    ensures ',' in s ==> |r| < |s|
    ensures ',' !in s ==> r == s
    ensures ',' !in r
  {
    if ',' !in s then s
    else if s[|s| - 1] == ',' then ""
    else AfterComma(s[..|s| - 1]) + [s[|s| - 1]]
  }

  // ----- The parser -----

  const TVP_LIBRARY := ["tvp-type", "tvp-series", "tvp-collection", "tvp-season", "tvp-episode"]
  const TVP_CODING := ["tvp-vcodec", "tvp-acodec", "tvp-resolution", "tvp-audio", "tvp-duration"]
  const TVP_REST := ["tvp-container", "tvp-audio-tracks", "tvp-id", "tvp-tags", "tvp-season-name"]

  predicate IsTVPKey(k: string) {
    k in TVP_LIBRARY || k in TVP_CODING || k in TVP_REST
  }

  const TVP_KEYS: set<string> := set k | k in TVP_LIBRARY + TVP_CODING + TVP_REST

  datatype Entry = Entry(name: string, url: string, group: string, logo: string, tvgID: string, tvgName: string,
                         tvp: map<string, string>)

  /** What the parser searches for: the name, = and an opening quote. */
  function KeyOf(k: string): string {
    k + "=\""
  }

  function ExtractAttr(line: string, attr: string): string {
    var start := Index(line, KeyOf(attr));
    if start < 0 then ""
    else
      var rest := line[start + |KeyOf(attr)|..];
      var end := Index(rest, "\"");
      if end < 0 then "" else rest[..end]
  }

  function ParseExtInf(line: string): Entry {
    Entry(
      if ',' in line then TrimSpace(AfterComma(line)) else "",
      "",
      ExtractAttr(line, "group-title"), ExtractAttr(line, "tvg-logo"),
      ExtractAttr(line, "tvg-id"), ExtractAttr(line, "tvg-name"),
      map k | k in TVP_KEYS :: ExtractAttr(line, k))
  }

  const EXTINF := "#EXTINF:"
  const EXTM3U := "#EXTM3U"

  /** One line: the entry it completes, if any, and the entry being built after it. */
  function ParseLine(raw: string, current: Option<Entry>): (seq<Entry>, Option<Entry>) {
    var line := TrimSpace(raw);
    if line == "" || line == EXTM3U then ([], current)
    else if EXTINF <= line then ([], Some(ParseExtInf(line)))
    else if current.Some? && !("#" <= line) then ([current.value.(url := line)], None)
    else ([], current)
  }

  const MAX_LINE := 10 * 1024 * 1024

  /** The length of a string in bytes of UTF-8. */
  function ByteLength(s: string): nat {
    if s == "" then 0
    else
      var c := s[0] as int;
      (if c < 0x80 then 1 else if c < 0x800 then 2 else if c < 0x1_0000 then 3 else 4) + ByteLength(s[1..])
  }

  /** The first line of a text without its line end, and what follows the line end. */
  function CutLine(s: string): (r: (string, string))
    ensures s != "" ==> |r.1| < |s|
  {
    if s == "" then ("", "")
    else if s[0] == '\n' then ("", s[1..])
    else var (l, rest) := CutLine(s[1..]); ([s[0]] + l, rest)
  }

  function DropCR(s: string): string {
    if s != "" && s[|s| - 1] == '\r' then s[..|s| - 1] else s
  }

  datatype Parsed = Parsed(entries: seq<Entry>, tooLong: bool)

  /** Line by line; a line that does not fit the scanner's buffer ends the scan with an error. */
  function ParseFrom(text: string, current: Option<Entry>): Parsed
    decreases |text|
  {
    if text == "" then Parsed([], false)
    else
      var (raw, rest) := CutLine(text);
      if ByteLength(raw) >= MAX_LINE then Parsed([], true)
      else
        var (done, next) := ParseLine(DropCR(raw), current);
        var more := ParseFrom(rest, next);
        Parsed(done + more.entries, more.tooLong)
  }

  lemma ParseOneLine(text: string, current: Option<Entry>)
    requires text != ""
    ensures var (raw, rest) := CutLine(text);
            var (done, next) := ParseLine(DropCR(raw), current);
            ParseFrom(text, current) ==
            if ByteLength(raw) >= MAX_LINE then Parsed([], true)
            else Parsed(done + ParseFrom(rest, next).entries, ParseFrom(rest, next).tooLong)
  {
  }

  method Parse(text: string) returns (entries: seq<Entry>, tooLong: bool)
    ensures Parsed(entries, tooLong) == ParseFrom(text, None)
  {
    entries := [];
    var current: Option<Entry> := None;
    var rest := text;
    ghost var all := ParseFrom(text, None);
    while rest != ""
      invariant all.entries == entries + ParseFrom(rest, current).entries
      invariant all.tooLong == ParseFrom(rest, current).tooLong
      decreases |rest|
    {
      ParseOneLine(rest, current);
      var (raw, after) := CutLine(rest);
      if ByteLength(raw) >= MAX_LINE {
        return entries, true;
      }
      var (done, next) := ParseLine(DropCR(raw), current);
      Assoc(entries, done, ParseFrom(after, next).entries);
      entries := entries + done;
      current := next;
      rest := after;
    }
    return entries, false;
  }

  // ----- The printer -----

  datatype Channel = Channel(id: string, name: string, tvgID: string, groupID: Option<string>, enabled: bool)

  /** Everything a playlist is made from: the group names and filter, the resolved logos, and the URL parts. */
  datatype Context = Context(groups: seq<(string, string)>, filter: Option<set<string>>, logo: Channel -> string,
                             baseURL: string, suffix: string)

  function ChannelEPGID(ch: Channel): string {
    if ch.tvgID != "" then ch.tvgID else "tvproxy." + ch.id
  }

  /** The name of a group: the last one listed under the ID. */
  function GroupName(groups: seq<(string, string)>, id: string): Option<string> {
    if groups == [] then None
    else if groups[|groups| - 1].0 == id then Some(groups[|groups| - 1].1)
    else GroupName(groups[..|groups| - 1], id)
  }

  function GroupTitle(ctx: Context, ch: Channel): Option<string> {
    if ch.groupID.Some? then GroupName(ctx.groups, ch.groupID.value) else None
  }

  predicate Listed(ctx: Context, ch: Channel) {
    && ch.enabled
    && (ctx.filter.Some? ==> ch.groupID.Some? && ch.groupID.value in ctx.filter.value)
  }

  function ChannelURL(ctx: Context, ch: Channel): string {
    ctx.baseURL + "/channel/" + ch.id + ctx.suffix
  }

  function Attr(name: string, value: string): string {
    " " + name + "=\"" + value + "\""
  }

  function AttrText(attrs: seq<(string, string)>): string {
    if attrs == [] then "" else Attr(attrs[0].0, attrs[0].1) + AttrText(attrs[1..])
  }

  /** `head` followed by the attributes. */
  function WithAttrs(head: string, attrs: seq<(string, string)>): string {
    head + AttrText(attrs)
  }

  function ChannelAttrs(ctx: Context, ch: Channel): seq<(string, string)> {
    [("tvg-id", ChannelEPGID(ch)), ("tvg-name", ch.name), ("tvg-logo", ctx.logo(ch))]
    + (if GroupTitle(ctx, ch).Some? then [("group-title", GroupTitle(ctx, ch).value)] else [])
  }

  const INFO := "#EXTINF:-1"

  function InfoLine(ctx: Context, ch: Channel): string {
    WithAttrs(INFO, ChannelAttrs(ctx, ch)) + "," + ch.name
  }

  function Render(ctx: Context, ch: Channel): string {
    InfoLine(ctx, ch) + "\n" + ChannelURL(ctx, ch) + "\n"
  }

  function RenderAll(ctx: Context, chs: seq<Channel>): string {
    if chs == [] then ""
    else RenderAll(ctx, chs[..|chs| - 1]) + (if Listed(ctx, chs[|chs| - 1]) then Render(ctx, chs[|chs| - 1]) else "")
  }

  method GroupNames(groups: seq<(string, string)>) returns (names: map<string, string>)
    ensures forall id :: (id in names <==> GroupName(groups, id).Some?)
    ensures forall id | id in names :: names[id] == GroupName(groups, id).value
  {
    names := map[];
    for i := 0 to |groups|
      invariant forall id :: (id in names <==> GroupName(groups[..i], id).Some?)
      invariant forall id | id in names :: names[id] == GroupName(groups[..i], id).value
    {
      names := names[groups[i].0 := groups[i].1];
      assert groups[..i + 1][..i] == groups[..i];
    }
    assert groups[..|groups|] == groups;
  }

  lemma ChannelAttrsWritten(ctx: Context, ch: Channel)
    ensures WithAttrs(INFO, ChannelAttrs(ctx, ch)) ==
            var three := INFO + Attr("tvg-id", ChannelEPGID(ch)) + Attr("tvg-name", ch.name) + Attr("tvg-logo", ctx.logo(ch));
            if GroupTitle(ctx, ch).Some? then three + Attr("group-title", GroupTitle(ctx, ch).value) else three
  {
    var id, name, logo := ("tvg-id", ChannelEPGID(ch)), ("tvg-name", ch.name), ("tvg-logo", ctx.logo(ch));
    WithAttrsOneMore(INFO, [], id);
    WithAttrsOneMore(INFO, [id], name);
    WithAttrsOneMore(INFO, [id, name], logo);
    assert [] + [id] == [id] && [id] + [name] == [id, name] && [id, name] + [logo] == [id, name, logo];
    if GroupTitle(ctx, ch).Some? {
      WithAttrsOneMore(INFO, [id, name, logo], ("group-title", GroupTitle(ctx, ch).value));
    } else {
      assert [id, name, logo] + [] == [id, name, logo];
    }
  }

  lemma {:induction false} AttrTextOneMore(attrs: seq<(string, string)>, a: (string, string))
    ensures AttrText(attrs + [a]) == AttrText(attrs) + Attr(a.0, a.1)
  {
    if attrs == [] {
      assert (attrs + [a])[1..] == [];
      assert Attr(a.0, a.1) + "" == "" + Attr(a.0, a.1);
    } else {
      assert (attrs + [a])[1..] == attrs[1..] + [a];
      AttrTextOneMore(attrs[1..], a);
      Assoc(Attr(attrs[0].0, attrs[0].1), AttrText(attrs[1..]), Attr(a.0, a.1));
    }
  }

  lemma WithAttrsOneMore(head: string, attrs: seq<(string, string)>, a: (string, string))
    ensures WithAttrs(head, attrs + [a]) == WithAttrs(head, attrs) + Attr(a.0, a.1)
  {
    AttrTextOneMore(attrs, a);
    Assoc(head, AttrText(attrs), Attr(a.0, a.1));
  }

  /** The two lines of one channel. */
  method WriteChannel(ctx: Context, ch: Channel, names: map<string, string>) returns (text: string)
    requires forall id :: (id in names <==> GroupName(ctx.groups, id).Some?)
    requires forall id | id in names :: names[id] == GroupName(ctx.groups, id).value
    ensures text == Render(ctx, ch)
  {
    ChannelAttrsWritten(ctx, ch);
    text := INFO;
    text := text + Attr("tvg-id", ChannelEPGID(ch));
    text := text + Attr("tvg-name", ch.name);
    text := text + Attr("tvg-logo", ctx.logo(ch));
    if ch.groupID.Some? && ch.groupID.value in names {
      text := text + Attr("group-title", names[ch.groupID.value]);
    }
    text := text + "," + ch.name;
    text := text + "\n" + ChannelURL(ctx, ch) + "\n";
  }

  method GenerateM3U(ctx: Context, channels: seq<Channel>) returns (text: string)
    ensures text == Playlist(ctx, channels)
    ensures "#EXTM3U\n" <= text
  {
    var names := GroupNames(ctx.groups);
    text := EXTM3U + "\n";
    assert text + "" == text;
    for i := 0 to |channels|
      invariant text == Playlist(ctx, channels[..i])
    {
      var ch := channels[i];
      PlaylistOneMore(ctx, channels, i);
      if !ch.enabled { continue; }
      if ctx.filter.Some? {
        if ch.groupID.None? || ch.groupID.value !in ctx.filter.value { continue; }
      }
      var lines := WriteChannel(ctx, ch, names);
      text := text + lines;
    }
    assert channels[..|channels|] == channels;
  }

  function Playlist(ctx: Context, channels: seq<Channel>): string {
    EXTM3U + "\n" + RenderAll(ctx, channels)
  }

  lemma PlaylistOneMore(ctx: Context, channels: seq<Channel>, i: nat)
    requires i < |channels|
    ensures Playlist(ctx, channels[..i + 1]) ==
            if Listed(ctx, channels[i]) then Playlist(ctx, channels[..i]) + Render(ctx, channels[i])
            else Playlist(ctx, channels[..i])
  {
    assert channels[..i + 1][..i] == channels[..i];
    if Listed(ctx, channels[i]) {
      Assoc(EXTM3U + "\n", RenderAll(ctx, channels[..i]), Render(ctx, channels[i]));
    } else {
      assert RenderAll(ctx, channels[..i]) + "" == RenderAll(ctx, channels[..i]);
    }
  }

  // ----- What is printed and what is looked for, letter by letter -----

  /** An attribute is a blank, its name and its value in quotes. */
  lemma AttrWritten(n: string, v: string)
    ensures Attr(n, v) == " " + n + "=\"" + v + "\""
  {
  }

  /** The two lines of a channel. */
  lemma RenderedText(ctx: Context, ch: Channel)
    ensures var id := if ch.tvgID != "" then ch.tvgID else "tvproxy." + ch.id;
            var three := "#EXTINF:-1" + Attr("tvg-id", id) + Attr("tvg-name", ch.name) + Attr("tvg-logo", ctx.logo(ch));
            var all := if GroupTitle(ctx, ch).Some? then three + Attr("group-title", GroupTitle(ctx, ch).value) else three;
            Render(ctx, ch) == all + "," + ch.name + "\n" + (ctx.baseURL + "/channel/" + ch.id + ctx.suffix) + "\n"
  {
    ChannelAttrsWritten(ctx, ch);
  }

  /** The group title is the name of the last group with the channel's group ID, if there is one. */
  lemma {:induction false} GroupNameIsLast(groups: seq<(string, string)>, id: string)
    ensures GroupName(groups, id).None? <==> forall i | 0 <= i < |groups| :: groups[i].0 != id
    ensures GroupName(groups, id).Some? ==>
              exists i :: 0 <= i < |groups| && groups[i] == (id, GroupName(groups, id).value)
                          && forall j | i < j < |groups| :: groups[j].0 != id
  {
    if groups != [] && groups[|groups| - 1].0 != id {
      var front := groups[..|groups| - 1];
      GroupNameIsLast(front, id);
      if GroupName(front, id).Some? {
        var i :| 0 <= i < |front| && front[i] == (id, GroupName(front, id).value)
                 && forall j | i < j < |front| :: front[j].0 != id;
        assert groups[i] == front[i];
      }
    }
  }

  /** What the parser makes of a line, once trimmed: an information line starts an entry, whether or not one was begun;
      any other line that is not empty and does not start with # completes the entry that was begun; no other line
      does anything. */
  lemma LineMeans(raw: string, current: Option<Entry>)
    ensures var line, done, next := TrimSpace(raw), ParseLine(raw, current).0, ParseLine(raw, current).1;
            && ("#EXTINF:" <= line ==> done == [] && next == Some(ParseExtInf(line)))
            && (line != "" && line[0] != '#' && current.Some? ==> done == [current.value.(url := line)] && next == None)
            && (!("#EXTINF:" <= line) && (line == "" || line[0] == '#' || current.None?) ==> done == [] && next == current)
  {
  }

  /** The names under which the parser looks for the fields of an entry. */
  lemma ParsedFields(line: string)
    ensures var e := ParseExtInf(line);
            && e.tvgID == ExtractAttr(line, "tvg-id") && e.tvgName == ExtractAttr(line, "tvg-name")
            && e.logo == ExtractAttr(line, "tvg-logo") && e.group == ExtractAttr(line, "group-title")
            && e.name == (if ',' in line then TrimSpace(AfterComma(line)) else "")
            && e.tvp.Keys == {"tvp-type", "tvp-series", "tvp-collection", "tvp-season", "tvp-episode",
                              "tvp-vcodec", "tvp-acodec", "tvp-resolution", "tvp-audio", "tvp-duration",
                              "tvp-container", "tvp-audio-tracks", "tvp-id", "tvp-tags", "tvp-season-name"}
            && forall k | k in e.tvp :: e.tvp[k] == ExtractAttr(line, k)
  {
  }

  // ----- Finding attributes -----

  /** What follows the first occurrence of key. */
  function After(s: string, key: string): Option<string> {
    if |s| < |key| then None
    else if s[..|key|] == key then Some(s[|key|..])
    else if s == "" then None
    else After(s[1..], key)
  }

  function UpToQuote(s: string): string {
    var end := Index(s, "\"");
    if end < 0 then "" else s[..end]
  }

  lemma {:induction false} AfterIsIndex(s: string, key: string)
    ensures After(s, key) == if Index(s, key) < 0 then None else Some(s[Index(s, key) + |key|..])
  {
    if |s| >= |key| && s[..|key|] != key && s != "" {
      AfterIsIndex(s[1..], key);
    }
  }

  lemma ExtractIsAfter(line: string, attr: string)
    ensures ExtractAttr(line, attr) ==
            match After(line, KeyOf(attr)) case None => "" case Some(rest) => UpToQuote(rest)
  {
    AfterIsIndex(line, KeyOf(attr));
  }

  /** A key as the parser searches it: a name followed by = and an opening quote. */
  ghost predicate IsKey(key: string) {
    && |key| >= 2 && key[|key| - 1] == '"'
    && forall i | 0 <= i < |key| - 1 :: key[i] != '"' && key[i] != ' ' && key[i] != ','
  }

  /** Text without quotes, up to a blank or comma, holds no part of a key. */
  lemma {:induction false} SkipPlain(c: string, t: string, key: string)
    requires IsKey(key) && '"' !in c
    requires t == "" || t[0] == ' ' || t[0] == ','
    ensures After(c + t, key) == After(t, key)
    decreases |c|
  {
    if c == "" {
      assert c + t == t;
    } else {
      var s := c + t;
      assert s[0] == c[0];
      if |s| >= |key| {
        assert s[..|key|] != key by {
          if |key| <= |c| {
            assert s[..|key|][|key| - 1] == c[|key| - 1];
          } else {
            assert s[..|key|][|c|] == t[0];
          }
        }
      }
      assert s[1..] == c[1..] + t;
      SkipPlain(c[1..], t, key);
      if |s| < |key| {
        AfterShort(t, key);
      }
    }
  }

  lemma AfterShort(t: string, key: string)
    requires |t| < |key|
    ensures After(t, key) == None
  {
  }

  /** `c` ends in its only quote. */
  ghost predicate Quoted(c: string) {
    c != "" && c[|c| - 1] == '"' && forall i | 0 <= i < |c| - 1 :: c[i] != '"'
  }

  lemma NotAtStart(c: string, t: string, key: string)
    requires IsKey(key) && Quoted(c) && c != key
    ensures |c + t| >= |key| ==> (c + t)[..|key|] != key
  {
    var s := c + t;
    if |s| >= |key| {
      if |key| < |c| {
        assert s[..|key|][|key| - 1] == c[|key| - 1];
      } else if |key| == |c| {
        assert s[..|key|] == c;
      } else {
        assert s[..|key|][|c| - 1] == '"';
      }
    }
  }

  /** Text up to a quote that does not end in the key holds no part of it. */
  lemma {:induction false} SkipQuoted(c: string, t: string, key: string)
    requires IsKey(key) && Quoted(c) && !HasSuffix(c, key)
    ensures After(c + t, key) == After(t, key)
    decreases |c|
  {
    var s := c + t;
    NotAtStart(c, t, key);
    if |c| == 1 {
      assert s[1..] == t;
    } else {
      assert s[1..] == c[1..] + t;
      assert |key| <= |c| - 1 ==> c[1..][|c| - 1 - |key|..] == c[|c| - |key|..];
      SkipQuoted(c[1..], t, key);
    }
    if |s| < |key| {
      AfterShort(t, key);
    }
  }

  /** Text up to a quote that does end in the key: the key is found there. */
  lemma {:induction false} HitQuoted(c: string, t: string, key: string)
    requires IsKey(key) && Quoted(c) && HasSuffix(c, key)
    ensures After(c + t, key) == Some(t)
    decreases |c|
  {
    var s := c + t;
    if |c| == |key| {
      assert s[..|key|] == c && s[|key|..] == t;
    } else {
      NotAtStart(c, t, key);
      assert s[1..] == c[1..] + t;
      assert c[1..][|c| - 1 - |key|..] == c[|c| - |key|..];
      HitQuoted(c[1..], t, key);
    }
  }

  lemma {:induction false} UpToFirstQuote(v: string, t: string)
    requires '"' !in v
    ensures UpToQuote(v + "\"" + t) == v
  {
    IndexOfQuote(v, t);
  }

  lemma {:induction false} IndexOfQuote(v: string, t: string)
    requires '"' !in v
    ensures Index(v + "\"" + t, "\"") == |v|
  {
    var s := v + "\"" + t;
    if v == "" {
      assert s[..1] == "\"";
    } else {
      assert s[..1][0] == v[0];
      assert s[1..] == v[1..] + "\"" + t;
      IndexOfQuote(v[1..], t);
    }
  }

  // ----- One line of attributes, read back -----

  const TVG_KEYS := ["tvg-id", "tvg-name", "tvg-logo", "group-title"]

  /** The attribute names the parser looks for. */
  ghost predicate IsAttrName(k: string) {
    k in TVG_KEYS || IsTVPKey(k)
  }

  /** A value that can stand between quotes on one line. */
  predicate Unquoted(v: string) {
    '"' !in v && '\n' !in v
  }

  /** The value listed under name k, if any. */
  function Lookup(attrs: seq<(string, string)>, k: string): Option<string> {
    if attrs == [] then None else if attrs[0].0 == k then Some(attrs[0].1) else Lookup(attrs[1..], k)
  }

  function ValueOf(attrs: seq<(string, string)>, k: string): string {
    match Lookup(attrs, k) case None => "" case Some(v) => v
  }

  /** Names made of neither quotes, blanks nor commas, none of which ends in another one. */
  ghost predicate PlainName(n: string) {
    n != "" && forall i | 0 <= i < |n| :: n[i] != '"' && n[i] != ' ' && n[i] != ','
  }

  ghost predicate Apart(n: string, k: string) {
    n == k || !HasSuffix(n, k)
  }

  lemma KeyOfPlain(k: string)
    requires PlainName(k)
    ensures IsKey(KeyOf(k))
  {
  }

  /** What follows the closing quote of a value, up to the opening quote of the next one. */
  function Gap(n: string): string {
    " " + n + "="
  }

  /** What a search for k comes to in a line with these attributes: a value that ends in k= is taken for the
      attribute's name, if it comes before the attribute. */
  function Seen(attrs: seq<(string, string)>, k: string): string {
    if attrs == [] then ""
    else if attrs[0].0 == k then attrs[0].1
    else if HasSuffix(attrs[0].1, k + "=") then (if |attrs| == 1 then "" else Gap(attrs[1].0))
    else Seen(attrs[1..], k)
  }

  /** One attribute: its name is found if it is the one looked for, otherwise the end of its value may be. */
  lemma AfterAttr(n: string, v: string, t: string, k: string)
    requires PlainName(n) && PlainName(k) && Apart(n, k) && '"' !in v
    ensures After(Attr(n, v) + t, KeyOf(k)) ==
            if n == k then Some(v + "\"" + t) else if HasSuffix(v, k + "=") then Some(t) else After(t, KeyOf(k))
  {
    KeyOfPlain(k);
    var c := " " + n + "=\"";
    var rest := v + "\"" + t;
    assert Attr(n, v) + t == c + rest;
    if n == k {
      assert c[|c| - |KeyOf(k)|..] == KeyOf(k);
      HitQuoted(c, rest, KeyOf(k));
    } else {
      NameApart(n, k);
      SkipQuoted(c, rest, KeyOf(k));
      if HasSuffix(v, k + "=") {
        SuffixExtend(v, k + "=", "\"");
        assert k + "=" + "\"" == KeyOf(k);
        HitQuoted(v + "\"", t, KeyOf(k));
      } else {
        ValueApart(v, k);
        SkipQuoted(v + "\"", t, KeyOf(k));
      }
    }
  }

  lemma SuffixExtend(a: string, b: string, x: string)
    requires HasSuffix(a, b)
    ensures HasSuffix(a + x, b + x)
  {
    assert (a + x)[|a| - |b|..] == a[|a| - |b|..] + x;
  }

  lemma SuffixCancel(a: string, b: string, x: string)
    ensures HasSuffix(a + x, b + x) ==> HasSuffix(a, b)
  {
    if HasSuffix(a + x, b + x) {
      var d := |a| - |b|;
      assert (a + x)[d..][..|b|] == a[d..];
      assert (b + x)[..|b|] == b;
    }
  }

  lemma NameApart(n: string, k: string)
    requires PlainName(n) && PlainName(k) && n != k && !HasSuffix(n, k)
    ensures Quoted(" " + n + "=\"") && !HasSuffix(" " + n + "=\"", KeyOf(k))
  {
    SuffixCancel(" " + n, k, "=\"");
    var d := |n| + 1 - |k|;
    assert d > 0 ==> (" " + n)[d..] == n[d - 1..];
    assert d == 0 ==> (" " + n)[d..][0] != k[0];
  }

  lemma ValueApart(v: string, k: string)
    requires '"' !in v && !HasSuffix(v, k + "=")
    ensures Quoted(v + "\"") && !HasSuffix(v + "\"", KeyOf(k))
  {
    SuffixCancel(v, k + "=", "\"");
    assert k + "=" + "\"" == KeyOf(k);
  }

  /** What the parser makes of a key in some text. */
  function Found(s: string, k: string): string {
    match After(s, KeyOf(k)) case None => "" case Some(rest) => UpToQuote(rest)
  }

  lemma {:induction false} NoQuoteNoValue(t: string)
    requires '"' !in t
    ensures Index(t, "\"") < 0
  {
    if t != "" {
      assert t[..1][0] == t[0];
      NoQuoteNoValue(t[1..]);
    }
  }

  /** From the end of a value to the next quote. */
  lemma GapSeen(rest: seq<(string, string)>, t: string)
    requires '"' !in t && (rest != [] ==> PlainName(rest[0].0))
    ensures UpToQuote(AttrText(rest) + t) == if rest == [] then "" else Gap(rest[0].0)
  {
    if rest == [] {
      assert "" + t == t;
      NoQuoteNoValue(t);
    } else {
      var n, v := rest[0].0, rest[0].1;
      var more := v + "\"" + (AttrText(rest[1..]) + t);
      assert AttrText(rest) + t == Gap(n) + "\"" + more;
      UpToFirstQuote(Gap(n), more);
    }
  }

  /** A line of attributes with values of any kind, searched for any name. */
  lemma {:induction false} AttrsSeen(attrs: seq<(string, string)>, t: string, k: string)
    requires PlainName(k) && '"' !in t
    requires forall i | 0 <= i < |attrs| :: PlainName(attrs[i].0) && Apart(attrs[i].0, k) && '"' !in attrs[i].1
    ensures Found(AttrText(attrs) + t, k) == Seen(attrs, k)
    decreases |attrs|
  {
    KeyOfPlain(k);
    if attrs == [] {
      assert "" + t == t;
      NoQuoteNoKey(t, KeyOf(k));
    } else {
      var n, v, rest := attrs[0].0, attrs[0].1, attrs[1..];
      Assoc(Attr(n, v), AttrText(rest), t);
      AfterAttr(n, v, AttrText(rest) + t, k);
      if n == k {
        UpToFirstQuote(v, AttrText(rest) + t);
      } else if HasSuffix(v, k + "=") {
        GapSeen(rest, t);
      } else {
        AttrsSeen(rest, t, k);
      }
    }
  }

  /** Value i is the first to end in k=, is not the last value, and no attribute up to it is named k. */
  predicate Misleads(attrs: seq<(string, string)>, k: string, i: nat) {
    && i + 1 < |attrs| && HasSuffix(attrs[i].1, k + "=")
    && (forall j | 0 <= j < i :: !HasSuffix(attrs[j].1, k + "="))
    && (forall j | 0 <= j <= i :: attrs[j].0 != k)
  }

  /** No value misleads the search for k, unless what is taken for k's value happens to be that value. */
  predicate Undisturbed(attrs: seq<(string, string)>, k: string) {
    forall i: nat | i + 1 < |attrs| && Misleads(attrs, k, i) :: Lookup(attrs, k) == Some(Gap(attrs[i + 1].0))
  }

  lemma {:induction false} MisledSeen(attrs: seq<(string, string)>, k: string, i: nat)
    requires Misleads(attrs, k, i)
    ensures Seen(attrs, k) == Gap(attrs[i + 1].0)
    decreases |attrs|
  {
    if i > 0 {
      assert forall j | 0 <= j < |attrs| - 1 :: attrs[1..][j] == attrs[j + 1];
      MisledSeen(attrs[1..], k, i - 1);
    }
  }

  lemma {:induction false} NotMisledSeen(attrs: seq<(string, string)>, k: string)
    requires forall i: nat | i + 1 < |attrs| :: !Misleads(attrs, k, i)
    ensures Seen(attrs, k) == ValueOf(attrs, k)
    decreases |attrs|
  {
    if attrs != [] && attrs[0].0 != k {
      if HasSuffix(attrs[0].1, k + "=") {
        assert |attrs| == 1 by {
          if |attrs| > 1 {
            assert Misleads(attrs, k, 0);
          }
        }
        assert Lookup(attrs[1..], k) == None;
      } else {
        forall i: nat | i + 1 < |attrs[1..]| ensures !Misleads(attrs[1..], k, i) {
          if Misleads(attrs[1..], k, i) {
            MisleadsLater(attrs, k, i);
          }
        }
        NotMisledSeen(attrs[1..], k);
      }
    }
  }

  lemma MisleadsLater(attrs: seq<(string, string)>, k: string, i: nat)
    requires attrs != [] && attrs[0].0 != k && !HasSuffix(attrs[0].1, k + "=") && Misleads(attrs[1..], k, i)
    ensures Misleads(attrs, k, i + 1)
  {
    var rest := attrs[1..];
    forall j | 0 <= j < i + 1 ensures !HasSuffix(attrs[j].1, k + "=") {
      if j > 0 {
        assert attrs[j] == rest[j - 1];
      }
    }
    forall j | 0 <= j <= i + 1 ensures attrs[j].0 != k {
      if j > 0 {
        assert attrs[j] == rest[j - 1];
      }
    }
  }

  /** An attribute is read back, or found missing, if and only if its search is undisturbed. */
  lemma SeenIff(attrs: seq<(string, string)>, k: string)
    ensures Seen(attrs, k) == ValueOf(attrs, k) <==> Undisturbed(attrs, k)
  {
    if i: nat :| i + 1 < |attrs| && Misleads(attrs, k, i) {
      MisledSeen(attrs, k, i);
      forall j: nat | j + 1 < |attrs| && Misleads(attrs, k, j) ensures j == i {
      }
      assert Gap(attrs[i + 1].0) != "";
    } else {
      NotMisledSeen(attrs, k);
    }
  }

  // ----- The whole playlist, read back -----

  lemma TvgNameFacts(n: string)
    requires n in TVG_KEYS
    ensures PlainName(n) && 6 <= |n| <= 11
    ensures forall i | 0 < i < |n| - 1 :: !(n[i] == 't' && n[i + 1] == 'v')
  {
  }

  /** The names start with tv, except for group-title. */
  ghost predicate NameShape(k: string) {
    && PlainName(k) && |k| >= 6
    && (k == "group-title" || (k[0] == 't' && k[1] == 'v'))
  }

  lemma LibraryNames(k: string)
    requires k in TVP_LIBRARY
    ensures NameShape(k) && k[2] == 'p'
  {
  }

  lemma CodingNames(k: string)
    requires k in TVP_CODING
    ensures NameShape(k) && k[2] == 'p'
  {
  }

  lemma RestNames(k: string)
    requires k in TVP_REST
    ensures NameShape(k) && k[2] == 'p'
  {
  }

  lemma TvgNames(k: string)
    requires k in TVG_KEYS
    ensures NameShape(k)
  {
  }

  lemma AttrNameFacts(k: string)
    requires IsAttrName(k)
    ensures NameShape(k)
  {
    if k in TVG_KEYS { TvgNames(k); }
    else if k in TVP_LIBRARY { LibraryNames(k); }
    else if k in TVP_CODING { CodingNames(k); }
    else { RestNames(k); }
  }

  lemma NamesApart(n: string, k: string)
    requires n in TVG_KEYS && NameShape(k)
    ensures PlainName(n) && Apart(n, k)
  {
    TvgNameFacts(n);
    ShapesApart(n, k);
  }

  lemma ShapesApart(n: string, k: string)
    requires NameShape(k) && |n| <= 11
    requires forall i | 0 < i < |n| - 1 :: !(n[i] == 't' && n[i + 1] == 'v')
    ensures Apart(n, k)
  {
    var d := |n| - |k|;
    if d > 0 {
      assert n[d..][0] == n[d] && n[d..][1] == n[d + 1];
    } else if d == 0 {
      assert n[d..] == n;
    }
  }

  lemma {:induction false} NoQuoteNoKey(t: string, key: string)
    requires IsKey(key) && '"' !in t
    ensures After(t, key) == None
  {
    if |t| >= |key| {
      assert t[..|key|][|key| - 1] == t[|key| - 1];
      NoQuoteNoKey(t[1..], key);
    }
  }

  /** What the parser finds under a name in a line of attributes. */
  lemma AttrSeen(head: string, attrs: seq<(string, string)>, t: string, k: string)
    requires PlainName(k) && '"' !in head && '"' !in t && t != "" && t[0] == ','
    requires forall i | 0 <= i < |attrs| :: PlainName(attrs[i].0) && Apart(attrs[i].0, k) && '"' !in attrs[i].1
    ensures ExtractAttr(WithAttrs(head, attrs) + t, k) == Seen(attrs, k)
  {
    var text := AttrText(attrs) + t;
    Assoc(head, AttrText(attrs), t);
    KeyOfPlain(k);
    assert text[0] == ' ' || text[0] == ',';
    SkipPlain(head, text, KeyOf(k));
    AttrsSeen(attrs, t, k);
    ExtractIsAfter(WithAttrs(head, attrs) + t, k);
  }

  lemma {:induction false} AfterCommaOf(a: string, t: string)
    ensures AfterComma(a + "," + t) == AfterComma(t)
    decreases |t|
  {
    var s := a + "," + t;
    assert s[|a|] == ',';
    if t != "" && t[|t| - 1] != ',' {
      var front := t[..|t| - 1];
      assert s[..|s| - 1] == a + "," + front;
      AfterCommaOf(a, front);
      if ',' !in t {
        assert front + [t[|t| - 1]] == t;
      } else {
        assert ',' in front;
      }
    }
  }

  lemma {:induction false} TrimRightKeeps(p: string, s: string)
    requires p != "" && !IsSpace(p[|p| - 1])
    ensures TrimRight(p + s) == p + TrimRight(s)
    decreases |s|
  {
    if s == "" {
      assert p + s == p;
    } else if IsSpace(s[|s| - 1]) {
      assert (p + s)[..|p + s| - 1] == p + s[..|s| - 1];
      TrimRightKeeps(p, s[..|s| - 1]);
    }
  }

  lemma TrimOneMore(s: string, c: char)
    requires IsSpace(c)
    ensures TrimSpace(s + [c]) == TrimSpace(s)
  {
    assert (s + [c])[..|s|] == s;
  }

  /** A title as it is read back: what follows its last comma, trimmed. */
  function TitleSeen(name: string): string {
    TrimSpace(AfterComma(name))
  }

  lemma {:induction false} TitleOfTrimmed(name: string)
    ensures TrimSpace(AfterComma(TrimRight(name))) == TitleSeen(name)
  {
    if name != "" && IsSpace(name[|name| - 1]) {
      var front, c := name[..|name| - 1], name[|name| - 1];
      assert name == front + [c];
      TitleOfTrimmed(front);
      if ',' in name {
        assert ',' in front;
      }
      assert AfterComma(name) == AfterComma(front) + [c];
      TrimOneMore(AfterComma(front), c);
    }
  }

  lemma {:induction false} TrimLength(s: string)
    ensures |TrimSpace(s)| <= |s|
  {
    TrimLeftLength(TrimRight(s));
  }

  lemma {:induction false} TrimLeftLength(s: string)
    ensures |TrimLeft(s)| <= |s|
  {
    if s != "" && IsSpace(s[0]) {
      TrimLeftLength(s[1..]);
    }
  }

  /** The channel name is read back exactly if it has no comma and no surrounding white space. */
  lemma TitleSeenIff(name: string)
    ensures TitleSeen(name) == name <==> ',' !in name && TrimSpace(name) == name
  {
    TrimLength(AfterComma(name));
  }

  lemma {:induction false} AttrTextFacts(attrs: seq<(string, string)>)
    requires forall i | 0 <= i < |attrs| :: '\n' !in attrs[i].0 && '\n' !in attrs[i].1
    ensures '\n' !in AttrText(attrs)
  {
    if attrs != [] {
      assert '\n' !in Attr(attrs[0].0, attrs[0].1);
      AttrTextFacts(attrs[1..]);
    }
  }

  lemma {:induction false} CutLineAt(l: string, rest: string)
    requires '\n' !in l
    ensures CutLine(l + "\n" + rest) == (l, rest)
  {
    var s := l + "\n" + rest;
    if l == "" {
      assert s[1..] == rest;
    } else {
      assert s[0] == l[0];
      assert s[1..] == l[1..] + "\n" + rest;
      CutLineAt(l[1..], rest);
      assert [l[0]] + l[1..] == l;
    }
  }

  lemma TrimDropCR(s: string)
    ensures TrimSpace(DropCR(s)) == TrimSpace(s)
  {
    if s != "" && s[|s| - 1] == '\r' {
      TrimOneMore(s[..|s| - 1], '\r');
      assert s == s[..|s| - 1] + ['\r'];
    }
  }

  /** No value of the channel has a quote or a line end. */
  predicate UnquotedChannel(ctx: Context, ch: Channel) {
    forall i | 0 <= i < |ChannelAttrs(ctx, ch)| :: Unquoted(ChannelAttrs(ctx, ch)[i].1)
  }

  /** Every line of a text fits the scanner's buffer. */
  predicate LinesFit(text: string)
    decreases |text|
  {
    text == "" || (ByteLength(CutLine(text).0) < MAX_LINE && LinesFit(CutLine(text).1))
  }

  /** A URL that comes out as one line that is taken for a URL, however many blank lines surround it. */
  predicate ReadableURL(url: string) {
    && LinesFit(url)
    && TrimSpace(url) != "" && TrimSpace(url)[0] != '#' && '\n' !in TrimSpace(url)
  }

  /** A channel whose strings the two lines can carry. */
  ghost predicate Readable(ctx: Context, ch: Channel) {
    && UnquotedChannel(ctx, ch)
    && (forall k | IsAttrName(k) :: Undisturbed(ChannelAttrs(ctx, ch), k))
    && ByteLength(InfoLine(ctx, ch)) < MAX_LINE && ReadableURL(ChannelURL(ctx, ch))
  }

  /** The entry a reader gets for a channel. */
  function EntryFor(ctx: Context, ch: Channel): Entry {
    Entry(TitleSeen(ch.name), TrimSpace(ChannelURL(ctx, ch)),
          if GroupTitle(ctx, ch).Some? then GroupTitle(ctx, ch).value else "",
          ctx.logo(ch), ChannelEPGID(ch), ch.name, map k | k in TVP_KEYS :: "")
  }

  lemma ChannelAttrsFacts(ctx: Context, ch: Channel)
    requires UnquotedChannel(ctx, ch)
    ensures forall i | 0 <= i < |ChannelAttrs(ctx, ch)| ::
              ChannelAttrs(ctx, ch)[i].0 in TVG_KEYS && Unquoted(ChannelAttrs(ctx, ch)[i].1)
    ensures '\n' !in WithAttrs(INFO, ChannelAttrs(ctx, ch)) && INFO <= WithAttrs(INFO, ChannelAttrs(ctx, ch))
    ensures Unquoted(ch.name)
  {
    var attrs := ChannelAttrs(ctx, ch);
    forall i | 0 <= i < |attrs|
      ensures attrs[i].0 in TVG_KEYS && Unquoted(attrs[i].1) && '\n' !in attrs[i].0
    {
      assert attrs[i].0 == TVG_KEYS[i];
      NoNewlineInNames(attrs[i].0);
    }
    AttrTextFacts(attrs);
    assert attrs[1] == ("tvg-name", ch.name);
  }

  lemma NoNewlineInNames(n: string)
    requires n in TVG_KEYS
    ensures '\n' !in n
  {
  }

  lemma LookupFour(ctx: Context, ch: Channel, k: string)
    ensures ValueOf(ChannelAttrs(ctx, ch), k) ==
            if k == "tvg-id" then ChannelEPGID(ch)
            else if k == "tvg-name" then ch.name
            else if k == "tvg-logo" then ctx.logo(ch)
            else if k == "group-title" && GroupTitle(ctx, ch).Some? then GroupTitle(ctx, ch).value
            else ""
  {
    var attrs := ChannelAttrs(ctx, ch);
    assert attrs[1..][1..] == attrs[2..] && attrs[2..][1..] == attrs[3..];
    if GroupTitle(ctx, ch).None? {
      assert attrs[3..] == [];
    } else {
      var last := ("group-title", GroupTitle(ctx, ch).value);
      assert attrs[3..] == [last] && attrs[3..][1..] == [];
      assert Lookup([last], k) == if k == "group-title" then Some(last.1) else None;
    }
    assert Lookup(attrs[2..], k) == if k == "tvg-logo" then Some(ctx.logo(ch)) else Lookup(attrs[3..], k);
    assert Lookup(attrs[1..], k) == if k == "tvg-name" then Some(ch.name) else Lookup(attrs[2..], k);
  }

  lemma ChannelAttrSeen(ctx: Context, ch: Channel, k: string)
    requires UnquotedChannel(ctx, ch) && IsAttrName(k)
    ensures ExtractAttr(TrimmedInfo(ctx, ch), k) == Seen(ChannelAttrs(ctx, ch), k)
  {
    ChannelAttrsFacts(ctx, ch);
    TailIsPlain(ch.name);
    AttrNameFacts(k);
    var attrs := ChannelAttrs(ctx, ch);
    forall i | 0 <= i < |attrs| ensures PlainName(attrs[i].0) && Apart(attrs[i].0, k) && '"' !in attrs[i].1 {
      NamesApart(attrs[i].0, k);
    }
    AttrSeen(INFO, attrs, "," + TrimRight(ch.name), k);
  }

  lemma TVPKeyFacts(k: string)
    requires IsTVPKey(k)
    ensures k != "tvg-id" && k != "tvg-name" && k != "tvg-logo" && k != "group-title"
  {
    if k in TVP_LIBRARY { LibraryNames(k); }
    else if k in TVP_CODING { CodingNames(k); }
    else { RestNames(k); }
  }

  lemma {:induction false} TrimRightIsPrefix(s: string)
    ensures TrimRight(s) <= s
  {
    if s != "" && IsSpace(s[|s| - 1]) {
      TrimRightIsPrefix(s[..|s| - 1]);
    }
  }

  /** What is left of a printed information line once the parser has trimmed it. */
  function TrimmedInfo(ctx: Context, ch: Channel): string {
    WithAttrs(INFO, ChannelAttrs(ctx, ch)) + ("," + TrimRight(ch.name))
  }

  lemma TrimAfterComma(w: string, name: string)
    requires INFO <= w
    ensures TrimSpace(w + "," + name) == w + ("," + TrimRight(name))
  {
    TrimRightKeeps(w + ",", name);
    Assoc(w, ",", TrimRight(name));
    StartsWithInfo(w, "," + TrimRight(name));
  }

  lemma TrimmedInfoLine(ctx: Context, ch: Channel)
    requires UnquotedChannel(ctx, ch)
    ensures TrimSpace(InfoLine(ctx, ch)) == TrimmedInfo(ctx, ch)
    ensures EXTINF <= TrimmedInfo(ctx, ch) && TrimmedInfo(ctx, ch) != EXTM3U
  {
    ChannelAttrsFacts(ctx, ch);
    TrimAfterComma(WithAttrs(INFO, ChannelAttrs(ctx, ch)), ch.name);
    StartsWithInfo(WithAttrs(INFO, ChannelAttrs(ctx, ch)), "," + TrimRight(ch.name));
  }

  lemma InfoIsOneLine(ctx: Context, ch: Channel)
    requires UnquotedChannel(ctx, ch)
    ensures '\n' !in InfoLine(ctx, ch)
  {
    ChannelAttrsFacts(ctx, ch);
  }

  lemma StartsWithInfo(w: string, t: string)
    requires INFO <= w
    ensures EXTINF <= w + t && w + t != EXTM3U && TrimLeft(w + t) == w + t
  {
    var l := w + t;
    assert forall i | 0 <= i < |INFO| :: l[i] == INFO[i];
    assert l[5] == 'N' && EXTM3U[5] == '3';
  }

  lemma TVPKeysAre(k: string)
    ensures k in TVP_KEYS <==> IsTVPKey(k)
  {
  }

  lemma TitleOfInfo(ctx: Context, ch: Channel)
    ensures ',' in TrimmedInfo(ctx, ch) && TrimSpace(AfterComma(TrimmedInfo(ctx, ch))) == TitleSeen(ch.name)
  {
    var w := WithAttrs(INFO, ChannelAttrs(ctx, ch));
    assert w + "," + TrimRight(ch.name) == TrimmedInfo(ctx, ch);
    assert TrimmedInfo(ctx, ch)[|w|] == ',';
    AfterCommaOf(w, TrimRight(ch.name));
    TitleOfTrimmed(ch.name);
  }

  lemma TailIsPlain(name: string)
    requires '"' !in name
    ensures '"' !in "," + TrimRight(name)
  {
    TrimRightIsPrefix(name);
  }

  /** The information line gives the channel's attributes if and only if the searches are undisturbed. */
  lemma InfoSeenIff(ctx: Context, ch: Channel)
    requires UnquotedChannel(ctx, ch)
    ensures ParseExtInf(TrimmedInfo(ctx, ch)) == EntryFor(ctx, ch).(url := "") <==>
            forall k | IsAttrName(k) :: Undisturbed(ChannelAttrs(ctx, ch), k)
  {
    var line, attrs := TrimmedInfo(ctx, ch), ChannelAttrs(ctx, ch);
    TitleOfInfo(ctx, ch);
    forall k | IsAttrName(k)
      ensures ExtractAttr(line, k) == ValueOf(attrs, k) <==> Undisturbed(attrs, k)
    {
      ChannelAttrSeen(ctx, ch, k);
      SeenIff(attrs, k);
    }
    EntryIff(ctx, ch, line);
  }

  /** Every name is found in the line with the channel's value. */
  ghost predicate AllFound(ctx: Context, ch: Channel, line: string) {
    forall k | IsAttrName(k) :: ExtractAttr(line, k) == ValueOf(ChannelAttrs(ctx, ch), k)
  }

  lemma NoTVPValue(ctx: Context, ch: Channel, k: string)
    requires IsTVPKey(k)
    ensures k in TVP_KEYS && ValueOf(ChannelAttrs(ctx, ch), k) == ""
  {
    TVPKeysAre(k);
    TVPKeyFacts(k);
    LookupFour(ctx, ch, k);
  }

  lemma EntryFinds(ctx: Context, ch: Channel, line: string, k: string)
    requires ParseExtInf(line) == EntryFor(ctx, ch).(url := "") && IsAttrName(k)
    ensures ExtractAttr(line, k) == ValueOf(ChannelAttrs(ctx, ch), k)
  {
    if IsTVPKey(k) {
      NoTVPValue(ctx, ch, k);
      assert ParseExtInf(line).tvp[k] == EntryFor(ctx, ch).tvp[k];
    } else {
      TvgIsOneOfFour(k);
      FourValues(ctx, ch);
    }
  }

  lemma FoundEntry(ctx: Context, ch: Channel, line: string)
    requires ',' in line && TrimSpace(AfterComma(line)) == TitleSeen(ch.name) && AllFound(ctx, ch, line)
    ensures ParseExtInf(line) == EntryFor(ctx, ch).(url := "")
  {
    FoundTVP(ctx, ch, line);
    FourValues(ctx, ch);
    TvgNameFound(ctx, ch, line, 0);
    TvgNameFound(ctx, ch, line, 1);
    TvgNameFound(ctx, ch, line, 2);
    TvgNameFound(ctx, ch, line, 3);
  }

  lemma FoundTVP(ctx: Context, ch: Channel, line: string)
    requires AllFound(ctx, ch, line)
    ensures ParseExtInf(line).tvp == EntryFor(ctx, ch).tvp
  {
    forall k | k in TVP_KEYS ensures ExtractAttr(line, k) == "" {
      TVPKeysAre(k);
      NoTVPValue(ctx, ch, k);
    }
  }

  lemma TvgNameFound(ctx: Context, ch: Channel, line: string, i: nat)
    requires AllFound(ctx, ch, line) && i < |TVG_KEYS|
    ensures ExtractAttr(line, TVG_KEYS[i]) == ValueOf(ChannelAttrs(ctx, ch), TVG_KEYS[i])
  {
    assert IsAttrName(TVG_KEYS[i]);
  }

  /** The entry of a line is the channel's if and only if every name is found with the channel's value. */
  lemma EntryIff(ctx: Context, ch: Channel, line: string)
    requires ',' in line && TrimSpace(AfterComma(line)) == TitleSeen(ch.name)
    ensures ParseExtInf(line) == EntryFor(ctx, ch).(url := "") <==> AllFound(ctx, ch, line)
  {
    if AllFound(ctx, ch, line) {
      FoundEntry(ctx, ch, line);
    } else if ParseExtInf(line) == EntryFor(ctx, ch).(url := "") {
      forall k | IsAttrName(k) ensures ExtractAttr(line, k) == ValueOf(ChannelAttrs(ctx, ch), k) {
        EntryFinds(ctx, ch, line, k);
      }
    }
  }

  lemma TvgIsOneOfFour(k: string)
    requires k in TVG_KEYS
    ensures k == "tvg-id" || k == "tvg-name" || k == "tvg-logo" || k == "group-title"
  {
  }

  lemma FourValues(ctx: Context, ch: Channel)
    ensures ValueOf(ChannelAttrs(ctx, ch), "tvg-id") == EntryFor(ctx, ch).tvgID
    ensures ValueOf(ChannelAttrs(ctx, ch), "tvg-name") == EntryFor(ctx, ch).tvgName
    ensures ValueOf(ChannelAttrs(ctx, ch), "tvg-logo") == EntryFor(ctx, ch).logo
    ensures ValueOf(ChannelAttrs(ctx, ch), "group-title") == EntryFor(ctx, ch).group
  {
    LookupFour(ctx, ch, "tvg-id");
    LookupFour(ctx, ch, "tvg-name");
    LookupFour(ctx, ch, "tvg-logo");
    LookupFour(ctx, ch, "group-title");
  }

  lemma InfoLineParsed(ctx: Context, ch: Channel, current: Option<Entry>)
    requires UnquotedChannel(ctx, ch)
    ensures ParseLine(DropCR(InfoLine(ctx, ch)), current) == ([], Some(ParseExtInf(TrimmedInfo(ctx, ch))))
  {
    TrimDropCR(InfoLine(ctx, ch));
    TrimmedInfoLine(ctx, ch);
  }

  lemma ParseLineThen(l: string, rest: string, current: Option<Entry>)
    requires '\n' !in l && ByteLength(l) < MAX_LINE
    ensures var (done, next) := ParseLine(DropCR(l), current);
            ParseFrom(l + "\n" + rest, current) ==
            Parsed(done + ParseFrom(rest, next).entries, ParseFrom(rest, next).tooLong)
  {
    CutLineAt(l, rest);
    assert l + "\n" + rest != "";
    ParseOneLine(l + "\n" + rest, current);
  }

  // ----- Blank lines around a URL -----

  ghost predicate Blank(s: string) {
    forall i | 0 <= i < |s| :: IsSpace(s[i])
  }

  lemma {:induction false} TrimRightBlank(s: string)
    ensures TrimRight(s) == "" <==> Blank(s)
  {
    if s != "" {
      assert s[|s| - 1] in s;
      if IsSpace(s[|s| - 1]) {
        TrimRightBlank(s[..|s| - 1]);
        assert s == s[..|s| - 1] + [s[|s| - 1]];
      }
    }
  }

  lemma {:induction false} TrimLeftBlank(s: string)
    ensures TrimLeft(s) == "" <==> Blank(s)
  {
    if s != "" && IsSpace(s[0]) {
      TrimLeftBlank(s[1..]);
      assert s == [s[0]] + s[1..];
    }
  }

  lemma TrimBlank(s: string)
    ensures TrimSpace(s) == "" <==> Blank(s)
  {
    TrimRightBlank(s);
    TrimLeftBlank(TrimRight(s));
    if TrimRight(s) != "" {
      TrimRightEnds(s);
    }
  }

  lemma {:induction false} TrimRightEnds(s: string)
    ensures TrimRight(s) != "" ==> !IsSpace(TrimRight(s)[|TrimRight(s)| - 1])
  {
    if s != "" && IsSpace(s[|s| - 1]) {
      TrimRightEnds(s[..|s| - 1]);
    }
  }

  /** Trimming on the right reaches only the second part, unless that is blank. */
  lemma {:induction false} TrimRightJoin(a: string, b: string)
    ensures TrimRight(a + b) == if Blank(b) then TrimRight(a) else a + TrimRight(b)
    decreases |b|
  {
    if b == "" {
      assert a + b == a;
    } else {
      var front, c := b[..|b| - 1], b[|b| - 1];
      assert b == front + [c];
      if IsSpace(c) {
        assert (a + b)[..|a + b| - 1] == a + front;
        TrimRightJoin(a, front);
      }
    }
  }

  lemma {:induction false} TrimLeftJoin(a: string, b: string)
    ensures TrimLeft(a + b) == if Blank(a) then TrimLeft(b) else TrimLeft(a) + b
    decreases |a|
  {
    if a == "" {
      assert a + b == b;
    } else {
      assert a == [a[0]] + a[1..];
      assert (a + b)[1..] == a[1..] + b;
      if IsSpace(a[0]) {
        TrimLeftJoin(a[1..], b);
      }
    }
  }

  lemma TrimBlankFirst(l: string, m: string)
    requires Blank(l)
    ensures TrimSpace(l + "\n" + m) == TrimSpace(m)
  {
    TrimRightJoin(l + "\n", m);
    if Blank(m) {
      TrimBlank(m);
      TrimBlank(l + "\n" + m);
    } else {
      TrimLeftJoin(l + "\n", TrimRight(m));
    }
  }

  lemma TrimTwoLines(l: string, m: string)
    requires !Blank(l) && !Blank(m)
    ensures '\n' in TrimSpace(l + "\n" + m)
  {
    TrimRightJoin(l + "\n", m);
    assert l + "\n" + TrimRight(m) == l + ("\n" + TrimRight(m));
    TrimLeftJoin(l, "\n" + TrimRight(m));
    assert TrimSpace(l + "\n" + m)[|TrimLeft(l)|] == '\n';
  }

  lemma TrimBlankLast(l: string, m: string)
    requires !Blank(l) && '\n' !in TrimSpace(l + "\n" + m)
    ensures Blank(m) && TrimSpace(l + "\n" + m) == TrimSpace(l)
  {
    if !Blank(m) {
      TrimTwoLines(l, m);
    }
    TrimRightJoin(l + "\n", m);
    TrimRightJoin(l, "\n");
  }

  lemma {:induction false} CutLineFacts(s: string)
    ensures '\n' !in CutLine(s).0
    ensures s == if '\n' in s then CutLine(s).0 + "\n" + CutLine(s).1 else CutLine(s).0
    ensures '\n' !in s ==> CutLine(s).1 == ""
  {
    if s != "" && s[0] != '\n' {
      CutLineFacts(s[1..]);
      assert s == [s[0]] + s[1..];
      var (l, rest) := CutLine(s[1..]);
      assert '\n' in s[1..] ==> [s[0]] + l + "\n" + rest == [s[0]] + (l + "\n" + rest);
    } else if s != "" {
      assert s == "" + "\n" + s[1..];
    }
  }

  lemma TooLongLine(l: string, rest: string, current: Option<Entry>)
    requires '\n' !in l && ByteLength(l) >= MAX_LINE
    ensures ParseFrom(l + "\n" + rest, current) == Parsed([], true)
  {
    CutLineAt(l, rest);
    assert l + "\n" + rest != "";
    ParseOneLine(l + "\n" + rest, current);
  }

  /** One line, whatever its length. */
  lemma NextLine(l: string, rest: string, current: Option<Entry>)
    requires '\n' !in l
    ensures var (done, next) := ParseLine(DropCR(l), current);
            ParseFrom(l + "\n" + rest, current) ==
            if ByteLength(l) >= MAX_LINE then Parsed([], true)
            else Parsed(done + ParseFrom(rest, next).entries, ParseFrom(rest, next).tooLong)
  {
    if ByteLength(l) >= MAX_LINE {
      TooLongLine(l, rest, current);
    } else {
      ParseLineThen(l, rest, current);
    }
  }

  lemma BlankLine(l: string, current: Option<Entry>)
    requires Blank(l)
    ensures ParseLine(DropCR(l), current) == ([], current)
  {
    TrimDropCR(l);
    TrimBlank(l);
  }

  lemma BlankParts(l: string, m: string)
    requires Blank(l + "\n" + m)
    ensures Blank(l) && Blank(m)
  {
    var b := l + "\n" + m;
    assert forall i | 0 <= i < |l| :: l[i] == b[i];
    assert forall i | 0 <= i < |m| :: m[i] == b[|l| + 1 + i];
  }

  /** The first of several lines. */
  lemma FirstOfMany(text: string, rest: string, current: Option<Entry>)
    requires '\n' in text
    ensures var (l, m) := CutLine(text);
            var (done, next) := ParseLine(DropCR(l), current);
            && text == l + "\n" + m && '\n' !in l && |m| < |text|
            && (LinesFit(text) <==> ByteLength(l) < MAX_LINE && LinesFit(m))
            && ParseFrom(text + "\n" + rest, current) ==
               if ByteLength(l) >= MAX_LINE then Parsed([], true)
               else Parsed(done + ParseFrom(m + "\n" + rest, next).entries, ParseFrom(m + "\n" + rest, next).tooLong)
  {
    CutLineFacts(text);
    var (l, m) := CutLine(text);
    assert text + "\n" + rest == l + "\n" + (m + "\n" + rest);
    NextLine(l, m + "\n" + rest, current);
  }

  /** The only line. */
  lemma OnlyLine(text: string, rest: string, current: Option<Entry>)
    requires '\n' !in text
    ensures LinesFit(text) <==> ByteLength(text) < MAX_LINE
    ensures var (done, next) := ParseLine(DropCR(text), current);
            ParseFrom(text + "\n" + rest, current) ==
            if ByteLength(text) >= MAX_LINE then Parsed([], true)
            else Parsed(done + ParseFrom(rest, next).entries, ParseFrom(rest, next).tooLong)
  {
    CutLineFacts(text);
    NextLine(text, rest, current);
    if text == "" {
      EmptyFits();
    }
  }

  /** Blank lines are skipped. */
  lemma {:induction false} BlankLines(b: string, rest: string, current: Option<Entry>)
    requires Blank(b)
    ensures ParseFrom(b + "\n" + rest, current) == if LinesFit(b) then ParseFrom(rest, current) else Parsed([], true)
    decreases |b|
  {
    if '\n' in b {
      FirstOfMany(b, rest, current);
      var (l, m) := CutLine(b);
      BlankParts(l, m);
      BlankLine(l, current);
      BlankLines(m, rest, current);
    } else {
      OnlyLine(b, rest, current);
      BlankLine(b, current);
    }
  }

  lemma EmptyFits()
    ensures ByteLength("") < MAX_LINE
  {
  }

  lemma URLLine(url: string, e: Entry)
    requires TrimSpace(url) != "" && TrimSpace(url)[0] != '#'
    ensures ParseLine(DropCR(url), Some(e)) == ([e.(url := TrimSpace(url))], None)
  {
    TrimDropCR(url);
    assert EXTINF[0] == '#' && EXTM3U[0] == '#';
  }

  /** What the parser makes of the text of a URL: the entry is completed, and any line that is too long ends the scan. */
  lemma {:induction false} URLText(url: string, rest: string, e: Entry)
    requires TrimSpace(url) != "" && TrimSpace(url)[0] != '#' && '\n' !in TrimSpace(url)
    ensures LinesFit(url) ==>
              ParseFrom(url + "\n" + rest, Some(e)) ==
              Parsed([e.(url := TrimSpace(url))] + ParseFrom(rest, None).entries, ParseFrom(rest, None).tooLong)
    ensures !LinesFit(url) ==> ParseFrom(url + "\n" + rest, Some(e)).tooLong
    decreases |url|
  {
    if '\n' !in url {
      OnlyLine(url, rest, Some(e));
      URLLine(url, e);
    } else {
      FirstOfMany(url, rest, Some(e));
      var (l, m) := CutLine(url);
      if Blank(l) {
        BlankLine(l, Some(e));
        TrimBlankFirst(l, m);
        URLText(m, rest, e);
      } else {
        TrimBlankLast(l, m);
        URLLine(l, e);
        BlankLines(m, rest, None);
      }
    }
  }

  // ----- One channel, read back -----

  lemma ChannelText(ctx: Context, ch: Channel, rest: string)
    requires UnquotedChannel(ctx, ch)
    ensures ParseFrom(Render(ctx, ch) + rest, None) ==
            if ByteLength(InfoLine(ctx, ch)) >= MAX_LINE then Parsed([], true)
            else ParseFrom(ChannelURL(ctx, ch) + "\n" + rest, Some(ParseExtInf(TrimmedInfo(ctx, ch))))
  {
    var info, url := InfoLine(ctx, ch), ChannelURL(ctx, ch);
    assert Render(ctx, ch) + rest == info + "\n" + (url + "\n" + rest);
    InfoIsOneLine(ctx, ch);
    InfoLineParsed(ctx, ch, None);
    NextLine(info, url + "\n" + rest, None);
    var more := ParseFrom(url + "\n" + rest, Some(ParseExtInf(TrimmedInfo(ctx, ch))));
    assert [] + more.entries == more.entries;
  }

  /** The text is read as the entry of the channel, followed by what is read of the rest. */
  ghost predicate ReadAs(ctx: Context, ch: Channel, rest: string) {
    ParseFrom(Render(ctx, ch) + rest, None) ==
    Parsed([EntryFor(ctx, ch)] + ParseFrom(rest, None).entries, ParseFrom(rest, None).tooLong)
  }

  lemma ChannelParsed(ctx: Context, ch: Channel, rest: string)
    requires Readable(ctx, ch)
    ensures ReadAs(ctx, ch, rest)
  {
    ChannelText(ctx, ch, rest);
    InfoSeenIff(ctx, ch);
    URLText(ChannelURL(ctx, ch), rest, EntryFor(ctx, ch).(url := ""));
  }

  /** What every entry is like that the parser is building. */
  ghost predicate SaneFields(e: Entry) {
    Unquoted(e.tvgID) && Unquoted(e.tvgName) && Unquoted(e.logo) && Unquoted(e.group)
  }

  /** What every entry is like that the parser returns. */
  ghost predicate SaneEntry(e: Entry) {
    SaneFields(e) && e.url != "" && e.url[0] != '#' && '\n' !in e.url
  }

  lemma {:induction false} IndexIsFirst(s: string)
    ensures Index(s, "\"") >= 0 ==> '"' !in s[..Index(s, "\"")]
  {
    if s != "" && s[..1] != "\"" {
      IndexIsFirst(s[1..]);
      var i := Index(s, "\"");
      if i >= 0 {
        assert s[..i] == [s[0]] + s[1..][..i - 1];
        assert s[..1] == [s[0]];
      }
    }
  }

  lemma ExtractedUnquoted(line: string, k: string)
    requires '\n' !in line
    ensures Unquoted(ExtractAttr(line, k))
  {
    var start := Index(line, KeyOf(k));
    if start >= 0 {
      IndexIsFirst(line[start + |KeyOf(k)|..]);
    }
  }

  lemma {:induction false} TrimKeepsNoNewline(s: string)
    requires '\n' !in s
    ensures '\n' !in TrimSpace(s)
  {
    TrimRightIsPrefix(s);
    TrimLeftIsSuffix(TrimRight(s));
  }

  lemma {:induction false} TrimLeftIsSuffix(s: string)
    ensures HasSuffix(s, TrimLeft(s))
  {
    if s != "" && IsSpace(s[0]) {
      TrimLeftIsSuffix(s[1..]);
    }
  }

  lemma LineSane(raw: string, current: Option<Entry>)
    requires '\n' !in raw && (current.Some? ==> SaneFields(current.value))
    ensures var (done, next) := ParseLine(raw, current);
            (forall e | e in done :: SaneEntry(e)) && (next.Some? ==> SaneFields(next.value))
  {
    TrimKeepsNoNewline(raw);
    var line := TrimSpace(raw);
    ExtractedUnquoted(line, "tvg-id");
    ExtractedUnquoted(line, "tvg-name");
    ExtractedUnquoted(line, "tvg-logo");
    ExtractedUnquoted(line, "group-title");
    assert line != "" && line[0] == '#' ==> "#" <= line;
  }

  lemma {:induction false} EntriesSane(text: string, current: Option<Entry>)
    requires current.Some? ==> SaneFields(current.value)
    ensures forall e | e in ParseFrom(text, current).entries :: SaneEntry(e)
    decreases |text|
  {
    if text != "" {
      ParseOneLine(text, current);
      CutLineFacts(text);
      var (raw, rest) := CutLine(text);
      LineSane(DropCR(raw), current);
      EntriesSane(rest, ParseLine(DropCR(raw), current).1);
    }
  }

  /** An entry with the channel's attributes can only come from unquoted values and a URL on one line. */
  lemma ReadIsSane(ctx: Context, ch: Channel)
    requires ReadAs(ctx, ch, "")
    ensures UnquotedChannel(ctx, ch) && TrimSpace(ChannelURL(ctx, ch)) != ""
    ensures TrimSpace(ChannelURL(ctx, ch))[0] != '#' && '\n' !in TrimSpace(ChannelURL(ctx, ch))
  {
    EntriesSane(Render(ctx, ch) + "", None);
    var e := EntryFor(ctx, ch);
    assert ParseFrom(Render(ctx, ch) + "", None).entries[0] == e;
    assert SaneEntry(e);
  }

  lemma FirstEntry(e: Entry, f: Entry, more: seq<Entry>)
    requires [e] + more == [f]
    ensures e == f && more == []
  {
    assert ([e] + more)[0] == e;
  }

  lemma ReadIsReadable(ctx: Context, ch: Channel)
    requires ReadAs(ctx, ch, "")
    ensures Readable(ctx, ch)
  {
    ReadIsSane(ctx, ch);
    ChannelText(ctx, ch, "");
    var e, u := ParseExtInf(TrimmedInfo(ctx, ch)), TrimSpace(ChannelURL(ctx, ch));
    URLText(ChannelURL(ctx, ch), "", e);
    assert ParseFrom("", None) == Parsed([], false);
    assert [EntryFor(ctx, ch)] + [] == [EntryFor(ctx, ch)];
    FirstEntry(e.(url := u), EntryFor(ctx, ch), []);
    assert e == EntryFor(ctx, ch).(url := "");
    InfoSeenIff(ctx, ch);
  }

  /** A channel is read back as its entry, whatever follows it, if and only if its values are unquoted, no search
      is disturbed, its lines fit, and its URL is one. */
  lemma ChannelReadIff(ctx: Context, ch: Channel)
    ensures (forall rest :: ReadAs(ctx, ch, rest)) <==> Readable(ctx, ch)
  {
    if Readable(ctx, ch) {
      forall rest ensures ReadAs(ctx, ch, rest) {
        ChannelParsed(ctx, ch, rest);
      }
    } else if ReadAs(ctx, ch, "") {
      ReadIsReadable(ctx, ch);
    }
  }

  /** The entries for the listed channels, in order. */
  function EntriesFor(ctx: Context, chs: seq<Channel>): seq<Entry> {
    if chs == [] then []
    else EntriesFor(ctx, chs[..|chs| - 1]) + (if Listed(ctx, chs[|chs| - 1]) then [EntryFor(ctx, chs[|chs| - 1])] else [])
  }

  /** What the entry of a channel holds. */
  lemma EntryFields(ctx: Context, ch: Channel)
    ensures var e := EntryFor(ctx, ch);
            && e.tvgID == (if ch.tvgID != "" then ch.tvgID else "tvproxy." + ch.id)
            && e.tvgName == ch.name && e.name == TrimSpace(AfterComma(ch.name)) && e.logo == ctx.logo(ch)
            && e.group == (if GroupTitle(ctx, ch).Some? then GroupTitle(ctx, ch).value else "")
            && e.url == TrimSpace(ctx.baseURL + "/channel/" + ch.id + ctx.suffix)
            && forall k | k in e.tvp :: e.tvp[k] == ""
  {
  }

  /** The entries are those of exactly the enabled channels that pass the group filter, in the order of the list. */
  lemma {:induction false} EntriesInOrder(ctx: Context, chs: seq<Channel>) returns (at: seq<nat>)
    ensures |at| == |EntriesFor(ctx, chs)|
    ensures forall i | 0 <= i < |at| :: at[i] < |chs| && EntriesFor(ctx, chs)[i] == EntryFor(ctx, chs[at[i]])
    ensures forall i, j | 0 <= i < j < |at| :: at[i] < at[j]
    ensures forall k: nat | k < |chs| ::
              k in at <==> chs[k].enabled && (ctx.filter.None? || (chs[k].groupID.Some? && chs[k].groupID.value in ctx.filter.value))
  {
    if chs == [] {
      at := [];
    } else {
      at := EntriesInOrder(ctx, chs[..|chs| - 1]);
      if Listed(ctx, chs[|chs| - 1]) {
        at := at + [|chs| - 1];
      }
    }
  }

  lemma {:induction false} AllParsed(ctx: Context, chs: seq<Channel>, rest: string)
    requires forall i | 0 <= i < |chs| && Listed(ctx, chs[i]) :: Readable(ctx, chs[i])
    ensures ParseFrom(RenderAll(ctx, chs) + rest, None) ==
            Parsed(EntriesFor(ctx, chs) + ParseFrom(rest, None).entries, ParseFrom(rest, None).tooLong)
    decreases |chs|
  {
    if chs == [] {
      assert "" + rest == rest;
    } else {
      var front, last := chs[..|chs| - 1], chs[|chs| - 1];
      if Listed(ctx, last) {
        Assoc(RenderAll(ctx, front), Render(ctx, last), rest);
        AllParsed(ctx, front, Render(ctx, last) + rest);
        ChannelParsed(ctx, last, rest);
        Assoc(EntriesFor(ctx, front), [EntryFor(ctx, last)], ParseFrom(rest, None).entries);
      } else {
        assert RenderAll(ctx, chs) == RenderAll(ctx, front);
        assert EntriesFor(ctx, chs) == EntriesFor(ctx, front);
        AllParsed(ctx, front, rest);
      }
    }
  }

  /** Parsing a generated playlist yields, in order, exactly one entry for each listed channel with its
      attributes, title and URL, no `tvp-` attribute, and no error. */
  lemma PlaylistRoundTrip(ctx: Context, chs: seq<Channel>)
    requires forall i | 0 <= i < |chs| && Listed(ctx, chs[i]) :: Readable(ctx, chs[i])
    ensures ParseFrom(Playlist(ctx, chs), None) == Parsed(EntriesFor(ctx, chs), false)
  {
    var rest := RenderAll(ctx, chs);
    assert ByteLength(EXTM3U) < MAX_LINE by { HeaderLength(); }
    ParseLineThen(EXTM3U, rest, None);
    HeaderLine();
    AllParsed(ctx, chs, "");
    assert rest + "" == rest;
    assert EntriesFor(ctx, chs) + [] == EntriesFor(ctx, chs);
    assert [] + EntriesFor(ctx, chs) == EntriesFor(ctx, chs);
  }

  lemma {:induction false} ByteLengthBound(s: string)
    ensures ByteLength(s) <= 4 * |s|
  {
    if s != "" {
      ByteLengthBound(s[1..]);
    }
  }

  lemma HeaderLength()
    ensures ByteLength(EXTM3U) < MAX_LINE
  {
    ByteLengthBound(EXTM3U);
  }

  lemma HeaderLine()
    ensures ParseLine(DropCR(EXTM3U), None) == ([], None)
  {
    assert !IsSpace('U') && !IsSpace('#');
    assert EXTM3U[|EXTM3U| - 1] == 'U';
    assert TrimSpace(EXTM3U) == EXTM3U;
  }

  lemma FirstValueMisleads(ctx: Context, ch: Channel, k: string)
    requires HasSuffix(ChannelEPGID(ch), k + "=") && k != "tvg-id"
    ensures Misleads(ChannelAttrs(ctx, ch), k, 0) && ChannelAttrs(ctx, ch)[1].0 == "tvg-name"
  {
    assert ChannelAttrs(ctx, ch)[0] == ("tvg-id", ChannelEPGID(ch));
  }

  /** A channel whose tvg-id ends in the name of a tvp attribute and = gets a value for it that it does not have. */
  lemma MisreadChannel(ctx: Context, ch: Channel, k: string)
    requires UnquotedChannel(ctx, ch) && IsTVPKey(k) && HasSuffix(ChannelEPGID(ch), k + "=")
    ensures ExtractAttr(TrimmedInfo(ctx, ch), k) == Gap("tvg-name") && !Readable(ctx, ch)
  {
    TVPKeyFacts(k);
    FirstValueMisleads(ctx, ch, k);
    MisledSeen(ChannelAttrs(ctx, ch), k, 0);
    ChannelAttrSeen(ctx, ch, k);
    NoTVPValue(ctx, ch, k);
    SeenIff(ChannelAttrs(ctx, ch), k);
  }
}
