/**
 * What the encoder chooses, in the terms of headers and tables: which headers are never indexed and come out marked so
 * at the other end, which of the others enter the dynamic table, and that of all references the search finds the best.
 */
module HpackChoices {
  import opened Bytes
  import opened Huffman
  import opened HeaderTable
  import opened IntegerCodec
  import opened HpackEncoder
  import opened HpackDecoder
  import opened HpackConnection
  import S = StaticTable

  // ---- which headers

  /** The application says so, or it may hold a secret: an authorization, or a short cookie. */
  predicate Secret(nv: Input) {
    || nv.flagged || nv.hdr.name == S.Ascii("authorization")
    || (nv.hdr.name == S.Ascii("cookie") && |nv.hdr.value| < 20)
  }

  /** Values that rarely come again. */
  predicate Fleeting(name: Bytes) {
    || name == S.Ascii(":path") || name == S.Ascii("age") || name == S.Ascii("content-length")
    || name == S.Ascii("etag") || name == S.Ascii("if-modified-since") || name == S.Ascii("if-none-match")
    || name == S.Ascii("location") || name == S.Ascii("set-cookie")
  }

  /** Too large for a table of this size to be worth it. */
  predicate Bulky(h: Header, max: nat) {
    4 * (32 + |h.name| + |h.value|) > 3 * max
  }

  lemma TokenIs(name: Bytes, token: int, t: nat, text: string)
    requires t < S.TOKENS && S.FirstOf(t) == t && S.TokenName(t) == text
    requires token == LookupToken(S.Nghttp2Statics(), name)
    ensures token == t <==> name == S.Ascii(text)
  {
    S.TokenMeans(name, t);
  }

  lemma FirstFleeting(name: Bytes, token: int)
    requires token == LookupToken(S.Nghttp2Statics(), name)
    ensures token == 3 <==> name == S.Ascii(":path")
    ensures token == 20 <==> name == S.Ascii("age")
    ensures token == 27 <==> name == S.Ascii("content-length")
    ensures token == 33 <==> name == S.Ascii("etag")
  {
    TokenIs(name, token, 3, ":path");
    TokenIs(name, token, 20, "age");
    TokenIs(name, token, 27, "content-length");
    TokenIs(name, token, 33, "etag");
  }

  lemma LastFleeting(name: Bytes, token: int)
    requires token == LookupToken(S.Nghttp2Statics(), name)
    ensures token == 39 <==> name == S.Ascii("if-modified-since")
    ensures token == 40 <==> name == S.Ascii("if-none-match")
    ensures token == 45 <==> name == S.Ascii("location")
    ensures token == 54 <==> name == S.Ascii("set-cookie")
  {
    TokenIs(name, token, 39, "if-modified-since");
    TokenIs(name, token, 40, "if-none-match");
    TokenIs(name, token, 45, "location");
    TokenIs(name, token, 54, "set-cookie");
  }

  lemma FleetingTokens(name: Bytes, token: int)
    requires token == LookupToken(S.Nghttp2Statics(), name)
    ensures IndexingDiscouraged(token) <==> Fleeting(name)
  {
    FirstFleeting(name, token);
    LastFleeting(name, token);
  }

  lemma SecretTokens(nv: Input, token: int)
    requires token == LookupToken(S.Nghttp2Statics(), nv.hdr.name)
    ensures token == TOKEN_AUTHORIZATION || (token == TOKEN_COOKIE && |nv.hdr.value| < 20) || nv.flagged <==> Secret(nv)
  {
    TokenIs(nv.hdr.name, token, 22, "authorization");
    TokenIs(nv.hdr.name, token, 31, "cookie");
  }

  /** The mode in those terms. */
  lemma ModeMeans(nv: Input, max: nat)
    ensures var mode := ModeOf(S.Nghttp2Statics(), nv, max);
            && (mode == NeverIndexing <==> Secret(nv))
            && (mode == WithIndexing <==> !Secret(nv) && !Fleeting(nv.hdr.name) && !Bulky(nv.hdr, max))
  {
    var token := LookupToken(S.Nghttp2Statics(), nv.hdr.name);
    SecretTokens(nv, token);
    FleetingTokens(nv.hdr.name, token);
  }

  // ---- what the other end sees, and what is remembered

  /** A header as it has to come out at the other end. */
  function Seen(nv: Input): Field {
    Field(nv.hdr.name, nv.hdr.value, Secret(nv))
  }

  lemma {:induction false} AllSeen(c: Codec, tbl: Table, nva: seq<Input>)
    requires c.st == S.Nghttp2Statics()
    ensures |AllExpected(c, tbl, nva)| == |nva|
    ensures forall k | 0 <= k < |nva| :: AllExpected(c, tbl, nva)[k] == Seen(nva[k])
    decreases |nva|
  {
    if nva != [] {
      ModeMeans(nva[0], tbl.max);
      AllSeen(c, DeflateNv(c, tbl, nva[0]).0, nva[1..]);
    }
  }

  /**
   * A block whose literals are not over-long comes out as it went in, and the headers marked never-indexed are
   * exactly those that are secret.
   */
  lemma SecretsComeOutMarked(c: Codec, e: Encoder, d: Decoder, nva: seq<Input>)
    requires Lawful(c) && c.st == S.Nghttp2Statics() && InStep(e, d) && AllStringsFit(c, e.tbl, nva)
    ensures var got := InflateBlock(c, d, DeflateBlock(c, e, nva).1);
            && got.0 != Bad && |got.1| == |nva|
            && forall k | 0 <= k < |nva| ::
                 got.1[k] == Field(nva[k].hdr.name, nva[k].hdr.value, Secret(nva[k]))
  {
    BlockRoundTrip(c, e, d, nva);
    AllSeen(c, e.tbl, nva);
  }

  /**
   * What the tables remember.  Headers that are secret, fleeting or bulky leave them as they were; every other one is
   * in the static table or comes to stand in the dynamic one.
   */
  lemma WhatIsRemembered(c: Codec, tbl: Table, nv: Input)
    requires c.st == S.Nghttp2Statics()
    ensures var r := DeflateNv(c, tbl, nv).0;
            if Secret(nv) || Fleeting(nv.hdr.name) || Bulky(nv.hdr, tbl.max) then r == tbl
            else nv.hdr in r.entries || (nv.hdr in S.StaticTable() && r == tbl)
    ensures DeflateNv(c, tbl, nv).0 != tbl ==>
              var r := DeflateNv(c, tbl, nv).0.entries; r != [] && r[0] == nv.hdr && r[1..] <= tbl.entries
  {
    ModeMeans(nv, tbl.max);
    InsertMeans(tbl, nv.hdr);
  }

  // ---- which reference

  predicate NameIn(hs: seq<Header>, name: Bytes) {
    exists k | 0 <= k < |hs| :: hs[k].name == name
  }

  /** The run of entries with a name, from i on. */
  lemma {:induction false} StaticFromFinds(st: Statics, h: Header, token: nat, i: nat)
    requires token < STATIC_LENGTH && st.table[token].name == h.name && i <= STATIC_LENGTH
    ensures match StaticFrom(st, h, token, i)
            case ExactMatch(k) => i <= k < STATIC_LENGTH && st.table[k] == h && h !in st.table[i..k]
            case NameMatch(k) =>
              && k == token
              && forall n | i <= n < STATIC_LENGTH && st.table[n] == h ::
                   exists o | i <= o < n :: st.table[o].name != h.name
            case NoMatch => false
    decreases STATIC_LENGTH - i
  {
    if i < STATIC_LENGTH && st.table[i].name == h.name && st.table[i].value != h.value {
      StaticFromFinds(st, h, token, i + 1);
      var m := StaticFrom(st, h, token, i + 1);
      if m.ExactMatch? {
        assert st.table[i..m.index] == [st.table[i]] + st.table[i + 1..m.index];
      }
    } else if i < STATIC_LENGTH && st.table[i].name == h.name {
      assert st.table[i] == h;
    }
  }

  /** In nghttp2's table that is all of it. */
  lemma StaticSearchFinds(h: Header, token: nat)
    requires token < STATIC_LENGTH && token == LookupToken(S.Nghttp2Statics(), h.name)
    ensures S.StaticTable()[token].name == h.name
    ensures match SearchStatic(S.Nghttp2Statics(), h, token, false)
            case ExactMatch(k) => S.StaticTable()[k] == h
            case _ => h !in S.StaticTable()
  {
    var st := S.Nghttp2Statics();
    StaticFromFinds(st, h, token, token);
    if StaticFrom(st, h, token, token).NameMatch? && h in S.StaticTable() {
      var n :| 0 <= n < STATIC_LENGTH && S.StaticTable()[n] == h;
      if n < token {
        S.TokenIsFirst(h.name, n);
      }
      var o :| token <= o < n && st.table[o].name != h.name;
      S.NamesTogether(token, o, n);
    }
  }

  lemma FindFinds(entries: seq<Header>, h: Header, nameOnly: bool)
    ensures match Find(entries, h, nameOnly)
            case ExactMatch(i) => !nameOnly && i < |entries| && entries[i] == h && h !in entries[..i]
            case NameMatch(i) =>
              && (nameOnly || h !in entries)
              && i < |entries| && entries[i].name == h.name && !NameIn(entries[..i], h.name)
            case NoMatch => !NameIn(entries, h.name)
  {
  }

  lemma NamedIsNameIn(entries: seq<Header>, h: Header)
    ensures !NameIn(entries, h.name) ==> h !in entries
  {
  }

  /** The token is that of the first static entry with the name, if there is one. */
  lemma TokenIsNameIn(name: Bytes, token: int)
    requires token == LookupToken(S.Nghttp2Statics(), name)
    ensures 0 <= token < STATIC_LENGTH <==> NameIn(S.StaticTable(), name)
    ensures 0 <= token < STATIC_LENGTH ==>
              S.StaticTable()[token].name == name && !NameIn(S.StaticTable()[..token], name)
  {
    forall i | 0 <= i < STATIC_LENGTH && (token == -1 || i < token)
      ensures S.StaticTable()[i].name != name
    {
      S.TokenIsFirst(name, i);
    }
  }

  /** m is the best reference for h. */
  ghost predicate Best(st: seq<Header>, entries: seq<Header>, h: Header, nameOnly: bool, m: Match)
    requires |st| == STATIC_LENGTH
  {
    match m
    case ExactMatch(i) =>
      && !nameOnly
      && if h in entries then i >= STATIC_LENGTH && i - STATIC_LENGTH < |entries|
                              && entries[i - STATIC_LENGTH] == h && h !in entries[..i - STATIC_LENGTH]
         else i < STATIC_LENGTH && st[i] == h
    case NameMatch(i) =>
      && (nameOnly || (h !in entries && h !in st))
      && if NameIn(st, h.name) then i < STATIC_LENGTH && st[i].name == h.name && !NameIn(st[..i], h.name)
         else && i >= STATIC_LENGTH && i - STATIC_LENGTH < |entries|
              && entries[i - STATIC_LENGTH].name == h.name && !NameIn(entries[..i - STATIC_LENGTH], h.name)
    case NoMatch => !NameIn(st, h.name) && !NameIn(entries, h.name)
  }

  /**
   * The search finds the best reference there is: the newest dynamic entry that equals the header, else a static one
   * that does; else the first static entry with its name, else the newest dynamic one with it.
   */
  lemma SearchFindsBest(entries: seq<Header>, h: Header, nameOnly: bool)
    ensures Best(S.StaticTable(), entries, h, nameOnly, Search(S.Nghttp2Statics(), entries, h, nameOnly))
  {
    var token := LookupToken(S.Nghttp2Statics(), h.name);
    TokenIsNameIn(h.name, token);
    if 0 <= token < STATIC_LENGTH {
      StaticSearchFinds(h, token);
    }
    StaticNameFirst(S.Nghttp2Statics(), h, token, entries, nameOnly);
  }

  /** The order of the two tables, whatever the static one is. */
  lemma StaticNameFirst(st: Statics, h: Header, token: int, entries: seq<Header>, nameOnly: bool)
    requires token == LookupToken(st, h.name)
    requires 0 <= token < STATIC_LENGTH <==> NameIn(st.table, h.name)
    requires 0 <= token < STATIC_LENGTH ==> st.table[token].name == h.name && !NameIn(st.table[..token], h.name)
    requires 0 <= token < STATIC_LENGTH ==>
               match SearchStatic(st, h, token, false)
               case ExactMatch(k) => st.table[k] == h
               case _ => h !in st.table
    ensures Best(st.table, entries, h, nameOnly, Search(st, entries, h, nameOnly))
  {
    FindFinds(entries, h, nameOnly);
    NamedIsNameIn(entries, h);
    NamedIsNameIn(st.table, h);
    if 0 <= token < STATIC_LENGTH && !nameOnly {
      StaticFromFinds(st, h, token, token);
    }
  }

  // ---- how short

  /** The shorter of the two forms of a string is sent. */
  lemma StringIsShorter(c: Codec, s: Bytes)
    ensures |EmitString(c, s)| <= |EncodeInt(0, |s|, 7) + s|
    ensures |EmitString(c, s)| <= |EncodeInt(0x80, |c.encode(s)|, 7) + c.encode(s)|
  {
    var plain, coded := |s|, |c.encode(s)|;
    EncodedLengthIsCount(0, plain, 7);
    EncodedLengthIsCount(0x80, coded, 7);
    if coded < plain {
      CountGrows(coded, plain, 7);
    } else {
      CountGrows(plain, coded, 7);
    }
  }

  lemma CountGrows(n: nat, m: nat, prefix: nat)
    requires n <= m && 4 <= prefix <= 7
    ensures CountEncodedLength(n, prefix) <= CountEncodedLength(m, prefix)
  {
    var k := Radix(prefix) - 1;
    if n >= k {
      TailGrows(n - k, m - k);
    }
  }

  lemma {:induction false} TailGrows(n: nat, m: nat)
    requires n <= m
    ensures |Tail(n)| <= |Tail(m)|
    decreases m
  {
    if n >= 128 {
      TailGrows(n / 128, m / 128);
    }
  }

  /** A header that is known and not secret goes as one index, which refers to it. */
  lemma KnownGoesAsIndex(c: Codec, tbl: Table, nv: Input)
    requires c.st == S.Nghttp2Statics() && !Secret(nv) && (nv.hdr in tbl.entries || nv.hdr in S.StaticTable())
    ensures exists i: nat ::
              ValidIndex(tbl.entries, i) && Lookup(c.st, tbl.entries, i) == nv.hdr
              && DeflateNv(c, tbl, nv) == (tbl, EncodeInt(0x80, i + 1, 7))
  {
    ModeMeans(nv, tbl.max);
    SearchFindsBest(tbl.entries, nv.hdr, false);
    NamedIsNameIn(tbl.entries, nv.hdr);
    NamedIsNameIn(S.StaticTable(), nv.hdr);
    var m := MatchOf(c, tbl, nv);
    assert m.ExactMatch? && Lookup(c.st, tbl.entries, m.index) == nv.hdr;
  }

  /** A name that is known is not sent again. */
  lemma KnownNameIsNotSent(c: Codec, tbl: Table, nv: Input)
    requires c.st == S.Nghttp2Statics() && Size(tbl.entries) <= tbl.max <= U32_MAX
    requires NameIn(tbl.entries, nv.hdr.name) || NameIn(S.StaticTable(), nv.hdr.name)
    ensures |DeflateNv(c, tbl, nv).1| <= 6 + |EmitString(c, nv.hdr.value)|
  {
    var mode, m := ModeOf(c.st, nv, tbl.max), MatchOf(c, tbl, nv);
    SearchFindsBest(tbl.entries, nv.hdr, mode == NeverIndexing);
    CountBound(tbl.entries);
    SixBytes(m.index + 1, 7);
    SixBytes(m.index + 1, NamePrefix(mode));
    EncodedLengthIsCount(0x80, m.index + 1, 7);
    EncodedLengthIsCount(FirstByte(mode), m.index + 1, NamePrefix(mode));
  }

  // ---- the size of the table

  /** What the peer's last setting and the encoder's own limit leave. */
  function Agreed(limit: nat, events: seq<Event>): nat {
    if events == [] then Min(limit, 4096)
    else match events[|events| - 1]
      case SettingsChange(v) => Min(limit, v)
      case HeaderBlock(_) => Agreed(limit, events[..|events| - 1])
  }

  function EncoderAfter(c: Codec, limit: nat, events: seq<Event>): Encoder {
    if events == [] then InitEncoder(limit)
    else
      var e := EncoderAfter(c, limit, events[..|events| - 1]);
      match events[|events| - 1]
      case SettingsChange(v) => ChangeEncoder(e, v)
      case HeaderBlock(nva) => DeflateBlock(c, e, nva).0
  }

  /** The encoder's table has this size after any run; if settings are small, so is the table, and no smaller. */
  lemma {:induction false} TableIsAsAgreed(c: Codec, limit: nat, events: seq<Event>)
    ensures var e := EncoderAfter(c, limit, events);
            e.tbl.max == Agreed(limit, events) && e.limit == limit && Size(e.tbl.entries) <= e.tbl.max
  {
    if events != [] {
      TableIsAsAgreed(c, limit, events[..|events| - 1]);
    }
  }
}
