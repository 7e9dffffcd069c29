/** The static table of RFC 7541, appendix A, and the token names of nghttp2_hd.h:57-131. */
module StaticTable {
  import opened Bytes
  import opened HeaderTable

  function Ascii(s: string): Bytes {
    seq(|s|, i requires 0 <= i < |s| => (s[i] as int) % 256)
  }

  const TOKENS: nat := 68

  /** The name with this token, or of this entry; tokens from 61 on are beyond the static table. */
  function TokenName(t: nat): string {
    match t
    case 0 => ":authority"
    case 1 | 2 => ":method"
    case 3 | 4 => ":path"
    case 5 | 6 => ":scheme"
    case 7 | 8 | 9 | 10 | 11 | 12 | 13 => ":status"
    case 14 => "accept-charset"
    case 15 => "accept-encoding"
    case 16 => "accept-language"
    case 17 => "accept-ranges"
    case 18 => "accept"
    case 19 => "access-control-allow-origin"
    case 20 => "age"
    case 21 => "allow"
    case 22 => "authorization"
    case 23 => "cache-control"
    case 24 => "content-disposition"
    case 25 => "content-encoding"
    case 26 => "content-language"
    case 27 => "content-length"
    case 28 => "content-location"
    case 29 => "content-range"
    case 30 => "content-type"
    case 31 => "cookie"
    case 32 => "date"
    case 33 => "etag"
    case 34 => "expect"
    case 35 => "expires"
    case 36 => "from"
    case 37 => "host"
    case 38 => "if-match"
    case 39 => "if-modified-since"
    case 40 => "if-none-match"
    case 41 => "if-range"
    case 42 => "if-unmodified-since"
    case 43 => "last-modified"
    case 44 => "link"
    case 45 => "location"
    case 46 => "max-forwards"
    case 47 => "proxy-authenticate"
    case 48 => "proxy-authorization"
    case 49 => "range"
    case 50 => "referer"
    case 51 => "refresh"
    case 52 => "retry-after"
    case 53 => "server"
    case 54 => "set-cookie"
    case 55 => "strict-transport-security"
    case 56 => "transfer-encoding"
    case 57 => "user-agent"
    case 58 => "vary"
    case 59 => "via"
    case 60 => "www-authenticate"
    case 61 => "te"
    case 62 => "connection"
    case 63 => "keep-alive"
    case 64 => "proxy-connection"
    case 65 => "upgrade"
    case 66 => ":protocol"
    case _ => "priority"
  }

  function StaticValue(i: nat): string {
    match i
    case 1 => "GET"
    case 2 => "POST"
    case 3 => "/"
    case 4 => "/index.html"
    case 5 => "http"
    case 6 => "https"
    case 7 => "200"
    case 8 => "204"
    case 9 => "206"
    case 10 => "304"
    case 11 => "400"
    case 12 => "404"
    case 13 => "500"
    case 15 => "gzip, deflate"
    case _ => ""
  }

  function StaticTable(): (t: seq<Header>)
    ensures |t| == STATIC_LENGTH
  {
    seq(STATIC_LENGTH, i requires 0 <= i < STATIC_LENGTH => Header(Ascii(TokenName(i)), Ascii(StaticValue(i))))
  }

  /** Tables and names as `lookup_token` and `static_table` fix them. */
  function Nghttp2Statics(): Statics {
    Statics(StaticTable(), seq(TOKENS, i requires 0 <= i < TOKENS => Ascii(TokenName(i))))
  }

  /** The first entry with the name of entry t. */
  function FirstOf(t: nat): nat {
    match t
    case 2 => 1
    case 4 => 3
    case 6 => 5
    case 8 | 9 | 10 | 11 | 12 | 13 => 7
    case _ => t
  }

  /** Length, last and first character tell the names apart: the switches of `lookup_token`. */
  function TokenOf(name: Bytes): int
    requires name != []
  {
    var first, last := name[0] as char, name[|name| - 1] as char;
    match |name|
    case 2 => 61
    case 3 =>
      if last == 'a' then 59
      else 20
    case 4 =>
      if last == 'e' then 32
      else if last == 'g' then 33
      else if last == 'k' then 44
      else if last == 'm' then 36
      else if last == 't' then 37
      else 58
    case 5 =>
      if last == 'e' then 49
      else if last == 'h' then 3
      else 21
    case 6 =>
      if last == 'e' then 31
      else if last == 'r' then 53
      else if last == 't' && first == 'a' then 18
      else 34
    case 7 =>
      if last == 'd' then 1
      else if last == 'e' && first == ':' then 5
      else if last == 'e' && first == 'u' then 65
      else if last == 'h' then 51
      else if last == 'r' then 50
      else if last == 's' && first == ':' then 7
      else 35
    case 8 =>
      if last == 'e' then 41
      else if last == 'h' then 38
      else if last == 'n' then 45
      else 67
    case 9 => 66
    case 10 =>
      if last == 'e' && first == 'k' then 63
      else if last == 'e' && first == 's' then 54
      else if last == 'n' then 62
      else if last == 't' then 57
      else 0
    case 11 => 52
    case 12 =>
      if last == 'e' then 30
      else 46
    case 13 =>
      if last == 'd' then 43
      else if last == 'e' then 29
      else if last == 'h' then 40
      else if last == 'l' then 23
      else if last == 'n' then 22
      else 17
    case 14 =>
      if last == 'h' then 27
      else 14
    case 15 =>
      if last == 'e' then 16
      else 15
    case 16 =>
      if last == 'e' && first == 'c' then 26
      else if last == 'e' && first == 'w' then 60
      else if last == 'g' then 25
      else if last == 'n' && first == 'c' then 28
      else 64
    case 17 =>
      if last == 'e' then 39
      else 56
    case 18 => 47
    case 19 =>
      if last == 'e' then 42
      else if last == 'n' && first == 'c' then 24
      else 48
    case 25 => 55
    case 27 => 19
    case _ => -1
  }

  lemma NameLow(t: nat)
    requires t < 27
    ensures Ascii(TokenName(t)) != [] && TokenOf(Ascii(TokenName(t))) == FirstOf(t)
  {
  }

  lemma NameMiddle(t: nat)
    requires 27 <= t < 46
    ensures Ascii(TokenName(t)) != [] && TokenOf(Ascii(TokenName(t))) == FirstOf(t)
  {
  }

  lemma NameHigh(t: nat)
    requires 46 <= t < TOKENS
    ensures Ascii(TokenName(t)) != [] && TokenOf(Ascii(TokenName(t))) == FirstOf(t)
  {
  }

  lemma NameFound(t: nat)
    requires t < TOKENS
    ensures Ascii(TokenName(t)) != [] && TokenOf(Ascii(TokenName(t))) == FirstOf(t)
  {
    if t < 27 {
      NameLow(t);
    } else if t < 46 {
      NameMiddle(t);
    } else {
      NameHigh(t);
    }
  }

  lemma RunOfNames(t: nat, u: nat)
    requires t < TOKENS && FirstOf(t) <= u <= t
    ensures TokenName(u) == TokenName(t) && FirstOf(u) == FirstOf(t)
  {
  }

  /** Only the entries of one run have the same name. */
  lemma NamesApart(t: nat, u: nat)
    requires t < TOKENS && u < TOKENS && Ascii(TokenName(t)) == Ascii(TokenName(u))
    ensures FirstOf(t) == FirstOf(u)
  {
    NameFound(t);
    NameFound(u);
  }

  /** Looking a name up finds the first token that has it. */
  lemma NameHasToken(t: nat)
    requires t < TOKENS
    ensures LookupToken(Nghttp2Statics(), Ascii(TokenName(t))) == FirstOf(t) <= t
  {
    var names, name, first := Nghttp2Statics().names, Ascii(TokenName(t)), FirstOf(t);
    var i := FirstIndex(names, name);
    RunOfNames(t, first);
    if i > first {
      FirstIndexIsFirst(names, name, first);
    } else {
      assert names[i] == Ascii(TokenName(i));
      NamesApart(i, t);
    }
  }

  /** And a token means its name. */
  lemma TokenMeans(name: Bytes, t: nat)
    requires t < TOKENS && FirstOf(t) == t
    ensures LookupToken(Nghttp2Statics(), name) == t <==> name == Ascii(TokenName(t))
  {
    NameHasToken(t);
  }

  /** Entries with the same name stand together. */
  lemma NamesTogether(i: nat, j: nat, k: nat)
    requires i <= j <= k < STATIC_LENGTH && StaticTable()[i].name == StaticTable()[k].name
    ensures StaticTable()[j].name == StaticTable()[k].name
  {
    NamesApart(i, k);
    NameHasToken(i);
    RunOfNames(k, j);
  }

  /** No entry before that of the token has the name: the run of entries with this name starts there. */
  lemma TokenIsFirst(name: Bytes, i: nat)
    requires i < STATIC_LENGTH && (LookupToken(Nghttp2Statics(), name) == -1 || i < LookupToken(Nghttp2Statics(), name))
    ensures StaticTable()[i].name != name
  {
    FirstIndexIsFirst(Nghttp2Statics().names, name, i);
    assert Nghttp2Statics().names[i] == StaticTable()[i].name;
  }
}
