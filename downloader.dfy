/**
 * The conversion of a browser-exported JSON cookie list into the Netscape
 * cookies.txt layout that the video downloader reads: two comment lines, a
 * blank line, then one tab-separated line per usable cookie.
 *
 * The JSON file comes in already decoded; writing the temporary file is
 * modelled as the list of lines it ends up holding.
 */
module Downloader {
  import opened Wrappers
  import opened Strings
  import opened Numbers
  import opened Selection

  /** The JSON values a cookie's flag and expiry keys can hold; containers only by their size. */
  datatype Json = JNull | JBool(b: bool) | JInt(i: int) | JFloat(x: real) | JStr(s: string) | JList(size: nat) | JObject(size: nat)

  /** Python truthiness of a JSON value. */
  predicate Truthy(j: Json)
  {
    match j
    case JNull => false
    case JBool(b) => b
    case JInt(i) => i != 0
    case JFloat(x) => x != 0.0
    case JStr(s) => |s| > 0
    case JList(n) => n > 0
    case JObject(n) => n > 0
  }

  /** One cookie record; every key can be missing. The text keys are modelled as strings. */
  datatype Cookie = Cookie(
    domain: Option<string>, path: Option<string>, name: Option<string>, value: Option<string>,
    httpOnly: Option<Json>, secure: Option<Json>, expires: Option<Json>)

  /** An entry of the list: a record, or some other JSON value (on which .get fails). */
  datatype Entry = Record(cookie: Cookie) | NotARecord

  /** The decoded document: a list of entries, or anything else. */
  datatype Document = EntryList(entries: seq<Entry>) | NotAList

  const HeaderLines: seq<string> := ["# Netscape HTTP Cookie File", "# Generated by clipify", ""]

  /** 'TRUE' if the flag is present and truthy, else 'FALSE'. */
  function FlagText(flag: Option<Json>): string
  {
    if flag.Some? && Truthy(flag.value) then "TRUE" else "FALSE"
  }

  /** int(expires_raw) with 0 when missing; ValueError and TypeError give 0. */
  function IntOf(j: Json): int
  {
    match j
    case JNull => 0
    case JBool(b) => if b then 1 else 0
    case JInt(i) => i
    case JFloat(x) => Trunc(x)
    case JStr(s) => ParseInt(s).GetOr(0)
    case JList(_) => 0
    case JObject(_) => 0
  }

  /** The expiry written: the converted value, with negative ones turned into 0 (a session cookie). */
  function Expires(raw: Option<Json>): (e: nat)
    ensures raw.Some? && IntOf(raw.value) >= 0 ==> e == IntOf(raw.value)
    ensures raw.None? || IntOf(raw.value) < 0 ==> e == 0
  {
    var n := IntOf(raw.GetOr(JInt(0)));
    if n < 0 then 0 else n
  }

  /** The seven fields of a cookie's line. */
  function Fields(c: Cookie): seq<string>
  {
    [c.domain.GetOr(""), FlagText(c.httpOnly), c.path.GetOr("/"), FlagText(c.secure),
     IntToString(Expires(c.expires)), c.name.GetOr(""), c.value.GetOr("")]
  }

  /** A cookie with an empty name or domain is skipped. */
  predicate Usable(c: Cookie)
  {
    c.name.GetOr("") != "" && c.domain.GetOr("") != ""
  }

  /** The line of a usable cookie: its fields joined by tabs. */
  function CookieLine(c: Cookie): Option<string>
  {
    if Usable(c) then Some(Join("\t", Fields(c))) else None
  }

  /** The cookie lines of a list, or None once an entry is not a record. */
  function CookieLines(entries: seq<Entry>): Option<seq<string>>
  {
    if |entries| == 0 then Some([])
    else match CookieLines(entries[..|entries| - 1])
      case None => None
      case Some(lines) =>
        match entries[|entries| - 1]
        case NotARecord => None
        case Record(c) => Some(if Usable(c) then lines + [CookieLine(c).value] else lines)
  }

  /** The lines of the converted file, or None when the conversion fails. */
  function Converted(doc: Document): Option<seq<string>>
  {
    match doc
    case NotAList => None
    case EntryList(entries) =>
      match CookieLines(entries)
      case None => None
      case Some(lines) => Some(HeaderLines + lines)
  }

  lemma CookieLinesPrefix(entries: seq<Entry>, k: nat)
    requires k < |entries|
    ensures CookieLines(entries[..k + 1])
      == match CookieLines(entries[..k])
         case None => None
         case Some(lines) =>
           match entries[k]
           case NotARecord => None
           case Record(c) => Some(if Usable(c) then lines + [CookieLine(c).value] else lines)
  {
    assert entries[..k + 1][..k] == entries[..k];
  }

  /** _convert_json_cookies_to_txt after decoding: the header, then one line per usable cookie. */
  method ConvertCookies(doc: Document) returns (fileLines: Option<seq<string>>)
    ensures fileLines == Converted(doc)
  {
    if !doc.EntryList? {
      return None;
    }
    var cookies := doc.entries;
    var written := HeaderLines;
    for k := 0 to |cookies|
      invariant CookieLines(cookies[..k]).Some?
      invariant written == HeaderLines + CookieLines(cookies[..k]).value
    {
      CookieLinesPrefix(cookies, k);
      if cookies[k].NotARecord? {
        CookieLinesFailed(cookies, k + 1);
        return None;
      }
      var cookie := cookies[k].cookie;
      var domain := cookie.domain.GetOr("");
      var flag := FlagText(cookie.httpOnly);
      var path := cookie.path.GetOr("/");
      var secure := FlagText(cookie.secure);
      var expires := Expires(cookie.expires);
      var name := cookie.name.GetOr("");
      var value := cookie.value.GetOr("");
      if name == "" || domain == "" {
        continue;
      }
      written := written + [Join("\t", [domain, flag, path, secure, IntToString(expires), name, value])];
    }
    assert cookies[..|cookies|] == cookies;
    fileLines := Some(written);
  }

  /** A failed prefix fails the whole list. */
  lemma {:induction false} CookieLinesFailed(entries: seq<Entry>, k: nat)
    requires k <= |entries| && CookieLines(entries[..k]).None?
    ensures CookieLines(entries).None?
    decreases |entries| - k
  {
    if k == |entries| {
      assert entries[..k] == entries;
    } else {
      CookieLinesPrefix(entries, k);
      CookieLinesFailed(entries, k + 1);
    }
  }

  /** Only a list converts, and it converts unless some entry is not a record. */
  lemma {:induction false} ConvertedFails(doc: Document)
    ensures doc.NotAList? ==> Converted(doc).None?
    ensures doc.EntryList? ==>
      (Converted(doc).None? <==> exists k :: 0 <= k < |doc.entries| && doc.entries[k].NotARecord?)
  {
    if doc.EntryList? {
      CookieLinesNone(doc.entries);
    }
  }

  lemma {:induction false} CookieLinesNone(entries: seq<Entry>)
    ensures CookieLines(entries).None? <==> exists k :: 0 <= k < |entries| && entries[k].NotARecord?
  {
    if |entries| > 0 {
      var init := entries[..|entries| - 1];
      CookieLinesNone(init);
      assert forall k :: 0 <= k < |init| ==> init[k] == entries[k];
    }
  }

  /** On a list of records the cookie lines are the lines of the usable cookies, in list order. */
  lemma {:induction false} CookieLinesCollect(cookies: seq<Cookie>)
    ensures CookieLines(Records(cookies)) == Some(Collect(cookies, CookieLine))
  {
    if |cookies| > 0 {
      var init := cookies[..|cookies| - 1];
      CookieLinesCollect(init);
      assert Records(cookies)[..|cookies| - 1] == Records(init);
      assert cookies == init + [cookies[|cookies| - 1]];
      CollectSnoc(init, cookies[|cookies| - 1], CookieLine);
    }
  }

  /** The entries of a list whose every element is a record. */
  function Records(cookies: seq<Cookie>): (r: seq<Entry>)
    ensures |r| == |cookies| && forall k :: 0 <= k < |cookies| ==> r[k] == Record(cookies[k])
  {
    seq(|cookies|, k requires 0 <= k < |cookies| => Record(cookies[k]))
  }

  /**
   * What a converted list of records holds: the two header comments and a
   * blank line, then line j for the usable cookie at position p[j], in list
   * order, and a line for every usable cookie and no other.
   */
  lemma ConvertedSpec(cookies: seq<Cookie>) returns (p: seq<nat>)
    ensures var r := Converted(EntryList(Records(cookies)));
      r.Some? && |r.value| == 3 + |p| && r.value[..3] == HeaderLines
      && (forall j :: 0 <= j < |p| ==>
            (p[j] < |cookies| && Usable(cookies[p[j]]) && r.value[3 + j] == Join("\t", Fields(cookies[p[j]]))))
      && (forall a, b :: 0 <= a < b < |p| ==> p[a] < p[b])
      && (forall k :: 0 <= k < |cookies| ==> (k in p <==> Usable(cookies[k])))
  {
    CookieLinesCollect(cookies);
    var lines := Collect(cookies, CookieLine);
    p := CollectSpec(cookies, CookieLine);
    var r := HeaderLines + lines;
    assert r[..3] == HeaderLines;
    forall j | 0 <= j < |p| ensures Usable(cookies[p[j]]) && r[3 + j] == Join("\t", Fields(cookies[p[j]])) {
      assert CookieLine(cookies[p[j]]) == Some(lines[j]);
    }
    forall k | 0 <= k < |cookies| ensures k in p <==> Usable(cookies[k]) {
      if k in p {
        var j :| 0 <= j < |p| && p[j] == k;
        assert CookieLine(cookies[p[j]]) == Some(lines[j]);
      }
    }
  }

  /**
   * A line splits on tabs into exactly the seven fields (domain, httpOnly
   * flag, path, secure flag, expiry, name, value) when none of the text
   * keys holds a tab.
   */
  lemma LineFields(c: Cookie)
    requires '\t' !in c.domain.GetOr("") && '\t' !in c.path.GetOr("/")
    requires '\t' !in c.name.GetOr("") && '\t' !in c.value.GetOr("")
    ensures |Fields(c)| == 7
    ensures SplitOn(Join("\t", Fields(c)), "\t") == Fields(c)
  {
    var fs := Fields(c);
    assert '\t' !in IntToString(Expires(c.expires)) by {
      assert forall i :: 0 <= i < |NatToString(Expires(c.expires))| ==> IsDigit(NatToString(Expires(c.expires))[i]);
    }
    assert '\t' !in FlagText(c.httpOnly) && '\t' !in FlagText(c.secure);
    assert forall i :: 0 <= i < |fs| ==> '\t' !in fs[i];
    SplitJoinChar(fs, '\t');
  }

  /** The flags read TRUE exactly for a present, truthy value, and a missing path is the root. */
  lemma FieldsSpec(c: Cookie)
    ensures Fields(c)[1] == "TRUE" <==> c.httpOnly.Some? && Truthy(c.httpOnly.value)
    ensures Fields(c)[3] == "TRUE" <==> c.secure.Some? && Truthy(c.secure.value)
    ensures Fields(c)[1] in {"TRUE", "FALSE"} && Fields(c)[3] in {"TRUE", "FALSE"}
    ensures c.path.None? ==> Fields(c)[2] == "/"
    ensures Fields(c)[4] == NatToString(Expires(c.expires))
  {
    assert "TRUE" != "FALSE" by { assert |"TRUE"| != |"FALSE"|; }
  }

  /** A negative or unconvertible expiry is written as 0; an integer string reads as its value. */
  lemma ExpiresSpec(n: int, s: string)
    ensures Expires(Some(JInt(n))) == if n < 0 then 0 else n
    ensures ParseInt(s).None? ==> Expires(Some(JStr(s))) == 0
    ensures Expires(Some(JStr(IntToString(n)))) == if n < 0 then 0 else n
    ensures Expires(Some(JNull)) == 0 && Expires(None) == 0
  {
    IntToStringParses(n);
  }
}
