/** The diagram helpers of `modules/llm_functions.py`: cutting the mermaid block or the
    draw.io document out of a completion reply, wrapping mermaid code into a draw.io file
    with the code escaped into an XML attribute, and naming the exported files. A reply is
    `None` when the completion request failed. */
module Diagrams {
  import opened Text
  import opened Values

  const MermaidFence: string := "```mermaid"
  const Fence: string := "```"

  /** Python's `s[i:j]` for a start inside the string and an end that may be negative
      (counted from the end of the string). */
  function PySlice(s: string, i: nat, j: int): (r: string)
    requires i <= |s|
    ensures 0 <= j <= |s| ==> r == Slice(s, i, j)
    ensures j == -1 && i < |s| ==> r == s[i..|s| - 1]
    ensures j == -1 && i == |s| ==> r == []
  {
    var e := if j < 0 then (if |s| + j < 0 then 0 else |s| + j) else if j > |s| then |s| else j;
    Slice(s, i, e)
  }

  /** A mermaid fence occurs in `s`, ending before the index returned. */
  function CodeStart(s: string): (start: nat)
    requires Contains(s, MermaidFence)
    ensures start <= |s| && OccursAt(s, MermaidFence, start - |MermaidFence|)
    ensures forall i :: 0 <= i < start - |MermaidFence| ==> !OccursAt(s, MermaidFence, i)
  {
    FindFrom(s, MermaidFence, 0) + |MermaidFence|
  }

  /** `generate_mermaid_architecture` once the request has returned: nothing for an
      empty reply; for a reply with a mermaid fence, the stripped text from the fence up
      to the next closing fence; otherwise the stripped reply. As written, a missing
      closing fence makes `find` return -1 and the slice stops one character short. */
  function MermaidAsWritten(reply: Option<string>): (r: Option<string>)
    ensures r.None? <==> reply.None? || reply.value == []
  {
    if reply.None? || reply.value == [] then None
    else
      var s := reply.value;
      if Contains(s, MermaidFence) then
        var start := CodeStart(s);
        Some(Strip(PySlice(s, start, FindFrom(s, Fence, start))))
      else Some(Strip(s))
  }

  /** The mermaid extraction with the end of the reply taken when no fence closes the
      block. */
  function MermaidCode(reply: Option<string>): (r: Option<string>)
    ensures r.None? <==> reply.None? || reply.value == []
    ensures r.Some? && !Contains(reply.value, MermaidFence) ==> r == Some(Strip(reply.value))
  {
    if reply.None? || reply.value == [] then None
    else
      var s := reply.value;
      if Contains(s, MermaidFence) then
        var start := CodeStart(s);
        var end := FindFrom(s, Fence, start);
        Some(Strip(if end == -1 then s[start..] else s[start..end]))
      else Some(Strip(s))
  }

  /** A reply holding one fenced mermaid block gives back exactly the stripped block. */
  lemma FencedBlock(pre: string, body: string, post: string)
    requires '`' !in pre && '`' !in body
    ensures MermaidCode(Some(pre + MermaidFence + body + Fence + post)) == Some(Strip(body))
  {
    var s := pre + MermaidFence + body + Fence + post;
    var start := |pre| + |MermaidFence|;
    var close := start + |body|;
    assert s[|pre|..start] == MermaidFence;
    FirstBacktickOccurrence(s, MermaidFence, 0, |pre|);
    assert s[close..close + 3] == Fence;
    FirstBacktickOccurrence(s, Fence, start, close);
    assert s[start..close] == body;
  }

  /** A pattern starting with a backtick first occurs at `k` when it occurs there and no
      backtick comes earlier. */
  lemma FirstBacktickOccurrence(s: string, sub: string, from: nat, k: nat)
    requires sub != [] && sub[0] == '`' && from <= k && OccursAt(s, sub, k)
    requires forall i :: from <= i < k ==> s[i] != '`'
    ensures FindFrom(s, sub, from) == k
  {
    var r := FindFrom(s, sub, from);
    if r != -1 {
      StartsWithFirst(s, sub, r);
    }
  }

  lemma StartsWithFirst(s: string, sub: string, i: int)
    requires sub != []
    ensures OccursAt(s, sub, i) ==> s[i] == sub[0]
  {
    if OccursAt(s, sub, i) {
      assert s[i] == s[i..i + |sub|][0];
    }
  }

  /** When the fence is never closed, the code as written loses the reply's last
      character, which the corrected extraction keeps. */
  lemma UnclosedFenceLosesLastChar(s: string)
    requires Contains(s, MermaidFence) && CodeStart(s) < |s|
    requires FindFrom(s, Fence, CodeStart(s)) == -1
    ensures MermaidAsWritten(Some(s)) == Some(Strip(s[CodeStart(s)..|s| - 1]))
    ensures MermaidCode(Some(s)) == Some(Strip(s[CodeStart(s)..]))
  {
  }

  /** The shortest such reply: a diagram whose closing fence is missing. */
  lemma UnclosedFenceExample()
    ensures MermaidAsWritten(Some("```mermaid\ngraph TD")) == Some("graph T")
    ensures MermaidCode(Some("```mermaid\ngraph TD")) == Some("graph TD")
  {
    var s := "```mermaid\ngraph TD";
    assert OccursAt(s, MermaidFence, 0);
    assert CodeStart(s) == 10;
    NoBacktickNoFence(s, 10);
    assert s[10..|s| - 1] == "\ngraph T";
    assert s[10..] == "\ngraph TD";
    StripSample();
  }

  /** No fence starts where no backtick is left. */
  lemma NoBacktickNoFence(s: string, from: nat)
    requires forall i :: from <= i < |s| ==> s[i] != '`'
    ensures FindFrom(s, Fence, from) == -1
  {
    forall i | from <= i ensures !OccursAt(s, Fence, i) {
      StartsWithFirst(s, Fence, i);
    }
  }

  lemma StripSample()
    ensures Strip("\ngraph T") == "graph T" && Strip("\ngraph TD") == "graph TD"
  {
    assert IsSpace('\n') && !IsSpace('g') && !IsSpace('T') && !IsSpace('D');
    assert StripStart("\ngraph T") == "graph T";
    assert StripStart("\ngraph TD") == "graph TD";
  }

  // ----- generate_xml_architecture -----

  const XmlDecl: string := "<?xml"
  const MxfileClose: string := "</mxfile>"

  /** The document in a reply: from the first `<?xml` on, cut after the first `</mxfile>`
      when there is one; nothing when the reply is empty or has no `<?xml`. */
  function XmlSlice(reply: Option<string>): (r: Option<string>)
    ensures r.Some? <==> reply.Some? && Contains(reply.value, XmlDecl)
    ensures r.Some? ==> StartsWith(r.value, XmlDecl)
    ensures r.Some? && Contains(r.value, MxfileClose) ==>
      OccursAt(r.value, MxfileClose, |r.value| - |MxfileClose|)
      && forall i :: 0 <= i < |r.value| - |MxfileClose| ==> !OccursAt(r.value, MxfileClose, i)
  {
    if reply.None? || reply.value == [] || !Contains(reply.value, XmlDecl) then None
    else
      var s := reply.value;
      var t := s[FindFrom(s, XmlDecl, 0)..];
      if Contains(t, MxfileClose) then
        var r := t[..FindFrom(t, MxfileClose, 0) + |MxfileClose|];
        ClosePrefix(t, r);
        Some(r)
      else Some(t)
  }

  /** Cutting `t` after its first `</mxfile>` leaves no earlier `</mxfile>`. */
  lemma ClosePrefix(t: string, r: string)
    requires Contains(t, MxfileClose) && r == t[..FindFrom(t, MxfileClose, 0) + |MxfileClose|]
    ensures Contains(r, MxfileClose) && OccursAt(r, MxfileClose, |r| - |MxfileClose|)
    ensures forall i :: 0 <= i < |r| - |MxfileClose| ==> !OccursAt(r, MxfileClose, i)
  {
    var f := FindFrom(t, MxfileClose, 0);
    assert r[f..f + |MxfileClose|] == t[f..f + |MxfileClose|];
    assert OccursAt(r, MxfileClose, f);
    forall i | 0 <= i < |r| - |MxfileClose| ensures !OccursAt(r, MxfileClose, i) {
      assert !OccursAt(t, MxfileClose, i);
      assert r[i..i + |MxfileClose|] == t[i..i + |MxfileClose|];
    }
  }

  /** The draw.io file `generate_xml_architecture` returns: a document cut out of the
      reply, or mermaid code that `convert_mermaid_to_drawio_xml` wraps. */
  datatype Diagram = Document(xml: string) | Converted(code: string)

  /** The choice `generate_xml_architecture` makes: the document when there is one, else
      the mermaid fallback when it is non-empty, else nothing. */
  function Choose(doc: Option<string>, code: Option<string>): (r: Option<Diagram>)
    ensures doc.Some? ==> r == Some(Document(doc.value))
    ensures r.Some? && r.value.Converted? ==> doc.None? && code == Some(r.value.code) && r.value.code != []
    ensures r.None? <==> doc.None? && (code.None? || code.value == [])
  {
    match doc
    case Some(x) => Some(Document(x))
    case None =>
      match code
      case Some(c) => if c != [] then Some(Converted(c)) else None
      case None => None
  }

  /** `generate_xml_architecture` once both requests have returned, with the corrected
      mermaid extraction: the document cut out of the draw.io reply, else the non-empty
      mermaid fallback, else nothing. */
  function GenerateXml(xmlReply: Option<string>, mermaidReply: Option<string>): (r: Option<Diagram>)
    ensures XmlSlice(xmlReply).Some? ==> r == Some(Document(XmlSlice(xmlReply).value))
    ensures r.Some? && r.value.Converted? ==>
      XmlSlice(xmlReply).None? && MermaidCode(mermaidReply) == Some(r.value.code) && r.value.code != []
    ensures r.None? <==> XmlSlice(xmlReply).None? && (MermaidCode(mermaidReply).None? || MermaidCode(mermaidReply).value == [])
  {
    Choose(XmlSlice(xmlReply), MermaidCode(mermaidReply))
  }

  /** `generate_xml_architecture` as written: its fallback calls the mermaid extraction
      as written. */
  function GenerateXmlAsWritten(xmlReply: Option<string>, mermaidReply: Option<string>): (r: Option<Diagram>)
    ensures XmlSlice(xmlReply).Some? ==> r == Some(Document(XmlSlice(xmlReply).value))
    ensures r.Some? && r.value.Converted? ==>
      XmlSlice(xmlReply).None? && MermaidAsWritten(mermaidReply) == Some(r.value.code) && r.value.code != []
    ensures r.None? <==>
      XmlSlice(xmlReply).None? && (MermaidAsWritten(mermaidReply).None? || MermaidAsWritten(mermaidReply).value == [])
  {
    Choose(XmlSlice(xmlReply), MermaidAsWritten(mermaidReply))
  }

  /** With no document in the draw.io reply and a mermaid block of one character that no
      fence closes, the code as written slices the block away and returns nothing, where
      the corrected extraction converts the block. */
  lemma FallbackExample()
    ensures GenerateXmlAsWritten(Some("x"), Some("```mermaidx")) == None
    ensures GenerateXml(Some("x"), Some("```mermaidx")) == Some(Converted("x"))
  {
    assert !Contains("x", XmlDecl);
    var s := "```mermaidx";
    assert OccursAt(s, MermaidFence, 0);
    assert CodeStart(s) == 10;
    NoBacktickNoFence(s, 10);
    assert PySlice(s, 10, -1) == [];
    assert s[10..] == "x";
    assert StripStart("x") == "x" by { assert !IsSpace('x'); }
  }

  // ----- convert_mermaid_to_drawio_xml -----

  /** The escaping as written: newlines and double quotes only, so that neither is left
      in the value. */
  function EscapeAsWritten(code: string): (r: string)
    ensures '\n' !in r && '"' !in r
  {
    var inner := Replace(code, "\n", "&#10;");
    ReplaceAvoids(code, "\n", "&#10;", '\n');
    ReplaceAvoids(inner, "\"", "&quot;", '"');
    ReplaceAvoids(inner, "\"", "&quot;", '\n');
    Replace(inner, "\"", "&quot;")
  }

  /** One character of an attribute value: the markup characters `&`, `<` and `"` become
      entity references and a newline a character reference. */
  function EscapeChar(c: char): (r: string)
    ensures r != [] && (r == [c] <==> c !in "&<\"\n")
  {
    if c == '&' then "&amp;"
    else if c == '<' then "&lt;"
    else if c == '"' then "&quot;"
    else if c == '\n' then "&#10;"
    else [c]
  }

  function EscapeAttr(s: string): (r: string)
    ensures |r| >= |s|
  {
    if s == [] then [] else EscapeChar(s[0]) + EscapeAttr(s[1..])
  }

  /** What an XML reader makes of an attribute value holding the four references; each
      reference reads as one character. */
  function Unescape(t: string): (r: string)
    ensures |r| <= |t|
    decreases |t|
  {
    if t == [] then []
    else if StartsWith(t, "&amp;") then "&" + Unescape(t[5..])
    else if StartsWith(t, "&lt;") then "<" + Unescape(t[4..])
    else if StartsWith(t, "&quot;") then "\"" + Unescape(t[6..])
    else if StartsWith(t, "&#10;") then "\n" + Unescape(t[5..])
    else [t[0]] + Unescape(t[1..])
  }

  /** An escaped value is a legal attribute value: it holds no `<`, no `"` and no raw
      newline. */
  lemma {:induction false} EscapedIsLegal(s: string)
    ensures forall i :: 0 <= i < |EscapeAttr(s)| ==> EscapeAttr(s)[i] !in "<\"\n"
  {
    if s != [] {
      EscapedIsLegal(s[1..]);
      var e, rest := EscapeChar(s[0]), EscapeAttr(s[1..]);
      forall i | 0 <= i < |e + rest| ensures (e + rest)[i] !in "<\"\n" {
        if i >= |e| { assert (e + rest)[i] == rest[i - |e|]; }
      }
    }
  }

  /** Reading back one escaped character, followed by anything escaped. */
  lemma UnescapeChar(c: char, rest: string)
    ensures Unescape(EscapeChar(c) + rest) == [c] + Unescape(rest)
  {
    if c == '&' {
      UnescapeAmp(rest);
    } else if c == '<' {
      UnescapeLt(rest);
    } else if c == '"' {
      UnescapeQuot(rest);
    } else if c == '\n' {
      UnescapeNewline(rest);
    } else {
      var t := [c] + rest;
      assert t[0] == c && t[1..] == rest && !StartsWith(t, "&amp;");
    }
  }

  lemma UnescapeAmp(rest: string)
    ensures Unescape("&amp;" + rest) == "&" + Unescape(rest)
  {
    var t := "&amp;" + rest;
    assert t[..5] == "&amp;" && t[5..] == rest;
  }

  lemma UnescapeLt(rest: string)
    ensures Unescape("&lt;" + rest) == "<" + Unescape(rest)
  {
    var t := "&lt;" + rest;
    assert t[..4] == "&lt;" && t[4..] == rest && t[1] == 'l';
  }

  lemma UnescapeQuot(rest: string)
    ensures Unescape("&quot;" + rest) == "\"" + Unescape(rest)
  {
    var t := "&quot;" + rest;
    assert t[..6] == "&quot;" && t[6..] == rest && t[1] == 'q';
  }

  lemma UnescapeNewline(rest: string)
    ensures Unescape("&#10;" + rest) == "\n" + Unescape(rest)
  {
    var t := "&#10;" + rest;
    assert t[..5] == "&#10;" && t[5..] == rest && t[1] == '#';
  }

  /** Reading the escaped value back gives the code. */
  lemma {:induction false} UnescapeEscape(s: string)
    ensures Unescape(EscapeAttr(s)) == s
  {
    if s != [] {
      UnescapeEscape(s[1..]);
      UnescapeChar(s[0], EscapeAttr(s[1..]));
      assert s == [s[0]] + s[1..];
    }
  }

  /** As written, a `<` reaches the attribute value unescaped, and a literal `&lt;` in the
      code reads back as `<`. */
  lemma EscapeAsWrittenExamples()
    ensures EscapeAsWritten("a<b") == "a<b"
    ensures Unescape(EscapeAsWritten("&lt;")) == "<"
  {
    assert Replace("a<b", "\n", "&#10;") == "a<b";
    assert Replace("a<b", "\"", "&quot;") == "a<b";
    assert Replace("&lt;", "\n", "&#10;") == "&lt;";
    assert Replace("&lt;", "\"", "&quot;") == "&lt;";
    assert StartsWith("&lt;", "&lt;") && !StartsWith("&lt;", "&amp;");
  }

  /** A file whose one attribute value is the code escaped by `EscapeAttr`, between a
      fixed head and tail: the head and tail come through unchanged, the value holds no
      `<`, `"` or raw newline, and an XML reader reads the code back from it. */
  function AttributeFile(head: string, code: string, tail: string): (r: string)
    ensures |head| + |tail| <= |r| && r[..|head|] == head && r[|r| - |tail|..] == tail
    ensures forall i :: |head| <= i < |r| - |tail| ==> r[i] !in "<\"\n"
    ensures Unescape(r[|head|..|r| - |tail|]) == code
  {
    var v := EscapeAttr(code);
    var r := head + v + tail;
    assert r[|head|..|r| - |tail|] == v;
    EscapedIsLegal(code);
    UnescapeEscape(code);
    r
  }

  /** The same file with the escaping as written: the head and tail come through
      unchanged and the value holds no `"` or raw newline. */
  function AttributeFileAsWritten(head: string, code: string, tail: string): (r: string)
    ensures |head| + |tail| <= |r| && r[..|head|] == head && r[|r| - |tail|..] == tail
    ensures forall i :: |head| <= i < |r| - |tail| ==> r[i] != '"' && r[i] != '\n'
  {
    var v := EscapeAsWritten(code);
    var r := head + v + tail;
    assert r[|head|..|r| - |tail|] == v;
    r
  }

  // ----- generate_export_urls -----

  /** `company_name.replace('.', '_').replace(' ', '_').lower()` */
  function SafeCompany(name: string): (r: string)
    ensures |r| == |name|
    ensures forall i :: 0 <= i < |r| ==> r[i] != '.' && r[i] != ' '
    ensures forall i :: 0 <= i < |r| ==> name[i] !in ". " ==> r[i] == ToLowerChar(name[i])
    ensures forall i :: 0 <= i < |r| ==> name[i] in ". " ==> r[i] == '_'
  {
    ReplaceCharIsMap(name, '.', '_');
    ReplaceCharIsMap(Replace(name, ".", "_"), ' ', '_');
    Lower(Replace(Replace(name, ".", "_"), " ", "_"))
  }

  const FileStem: string := "snowflake_architecture_"

  /** The mermaid file's name: the company part holds no dot or space, so the only dot is
      the extension's. */
  function MermaidFile(company: string): (r: string)
    ensures |r| == |FileStem| + |company| + 4 && r[..|FileStem|] == FileStem && r[|r| - 4..] == ".mmd"
    ensures forall i :: |FileStem| <= i < |r| - 4 ==> r[i] != '.' && r[i] != ' '
  {
    var r := FileStem + SafeCompany(company) + ".mmd";
    assert forall i :: |FileStem| <= i < |r| - 4 ==> r[i] == SafeCompany(company)[i - |FileStem|];
    r
  }

  /** The draw.io file's name, built the same way. */
  function DrawioFile(company: string): (r: string)
    ensures |r| == |FileStem| + |company| + 7 && r[..|FileStem|] == FileStem && r[|r| - 7..] == ".drawio"
    ensures forall i :: |FileStem| <= i < |r| - 7 ==> r[i] != '.' && r[i] != ' '
  {
    var r := FileStem + SafeCompany(company) + ".drawio";
    assert forall i :: |FileStem| <= i < |r| - 7 ==> r[i] == SafeCompany(company)[i - |FileStem|];
    r
  }

  /** The two exported files share their stem and differ in their extension. */
  lemma ExportNamesShareStem(company: string)
    ensures var stem := FileStem + SafeCompany(company);
      MermaidFile(company) == stem + ".mmd" && DrawioFile(company) == stem + ".drawio"
      && MermaidFile(company) != DrawioFile(company)
  {
    var stem := FileStem + SafeCompany(company);
    assert MermaidFile(company)[|stem| + 1] == 'm' && DrawioFile(company)[|stem| + 1] == 'd';
  }
}
