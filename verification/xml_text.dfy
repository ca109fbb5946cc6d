/**
  The text form of the writer's output: escaping of character data and
  attribute values, and the markup of start tags, end tags and namespace
  declarations.
 */
module XmlText {
  import opened XmlNames

  /** A staged attribute: its name, the text written into it so far, and its quote character. */
  datatype Attribute = Attribute(name: QName, value: string, singleQuote: bool)

  /** The entity reference that stands for `c`, or `c` itself when it needs none. */
  function EscapeChar(c: char, inAttribute: bool): string {
    if c == '&' then "&amp;"
    else if c == '<' then "&lt;"
    else if c == '>' then "&gt;"
    else if inAttribute && c == '"' then "&quot;"
    else if inAttribute && c == '\'' then "&apos;"
    else [c]
  }

  /**
    Character data as written: markup characters are replaced by entity
    references, and so are both quote characters inside an attribute value.
   */
  function Escape(s: string, inAttribute: bool): string
    decreases |s|
  {
    if s == [] then [] else EscapeChar(s[0], inAttribute) + Escape(s[1..], inAttribute)
  }

  /**
    Escaped text holds no markup: no `<` or `>` anywhere, and no quote
    character inside an attribute value.
   */
  lemma {:induction false} EscapeIsMarkupFree(s: string, inAttribute: bool)
    ensures '<' !in Escape(s, inAttribute) && '>' !in Escape(s, inAttribute)
    ensures inAttribute ==> '"' !in Escape(s, inAttribute) && '\'' !in Escape(s, inAttribute)
    decreases |s|
  {
    if s != [] {
      EscapeIsMarkupFree(s[1..], inAttribute);
      var head := EscapeChar(s[0], inAttribute);
      var rest := Escape(s[1..], inAttribute);
      assert Escape(s, inAttribute) == head + rest;
      assert '<' !in head && '>' !in head;
      assert inAttribute ==> '"' !in head && '\'' !in head;
    }
  }

  /** Reads escaped character data back: each entity reference becomes its character. */
  function Unescape(s: string): string
    decreases |s|
  {
    if s == [] then []
    else if "&amp;" <= s then "&" + Unescape(s[5..])
    else if "&lt;" <= s then "<" + Unescape(s[4..])
    else if "&gt;" <= s then ">" + Unescape(s[4..])
    else if "&quot;" <= s then "\"" + Unescape(s[6..])
    else if "&apos;" <= s then "'" + Unescape(s[6..])
    else [s[0]] + Unescape(s[1..])
  }

  lemma UnescapeAmp(rest: string)
    ensures Unescape("&amp;" + rest) == "&" + Unescape(rest)
  {
    var e := "&amp;" + rest;
    assert "&amp;" <= e && e[5..] == rest;
  }

  lemma UnescapeLt(rest: string)
    ensures Unescape("&lt;" + rest) == "<" + Unescape(rest)
  {
    var e := "&lt;" + rest;
    assert e[1] == 'l' && e[4..] == rest;
    assert !("&amp;" <= e) && "&lt;" <= e;
  }

  lemma UnescapeGt(rest: string)
    ensures Unescape("&gt;" + rest) == ">" + Unescape(rest)
  {
    var e := "&gt;" + rest;
    assert e[1] == 'g' && e[4..] == rest;
    assert !("&amp;" <= e) && !("&lt;" <= e) && "&gt;" <= e;
  }

  lemma UnescapeQuot(rest: string)
    ensures Unescape("&quot;" + rest) == "\"" + Unescape(rest)
  {
    var e := "&quot;" + rest;
    assert e[1] == 'q' && e[6..] == rest;
    assert !("&amp;" <= e) && !("&lt;" <= e) && !("&gt;" <= e) && "&quot;" <= e;
  }

  lemma UnescapeApos(rest: string)
    ensures Unescape("&apos;" + rest) == "'" + Unescape(rest)
  {
    var e := "&apos;" + rest;
    assert e[1] == 'a' && e[2] == 'p' && e[6..] == rest;
    assert !("&amp;" <= e) && !("&lt;" <= e) && !("&gt;" <= e) && !("&quot;" <= e) && "&apos;" <= e;
  }

  lemma UnescapePlain(c: char, rest: string)
    requires c != '&'
    ensures Unescape([c] + rest) == [c] + Unescape(rest)
  {
    var e := [c] + rest;
    assert e[0] == c && e[1..] == rest;
    assert !("&amp;" <= e) && !("&lt;" <= e) && !("&gt;" <= e) && !("&quot;" <= e) && !("&apos;" <= e);
  }

  /** Reading back one escaped character gives the character. */
  lemma UnescapeEscapeChar(c: char, inAttribute: bool, rest: string)
    ensures Unescape(EscapeChar(c, inAttribute) + rest) == [c] + Unescape(rest)
  {
    if c == '&' {
      UnescapeAmp(rest);
    } else if c == '<' {
      UnescapeLt(rest);
    } else if c == '>' {
      UnescapeGt(rest);
    } else if inAttribute && c == '"' {
      UnescapeQuot(rest);
    } else if inAttribute && c == '\'' {
      UnescapeApos(rest);
    } else {
      UnescapePlain(c, rest);
    }
  }

  /** Escaping loses nothing: reading the written text back gives the original. */
  lemma {:induction false} UnescapeEscape(s: string, inAttribute: bool)
    ensures Unescape(Escape(s, inAttribute)) == s
    decreases |s|
  {
    if s != [] {
      UnescapeEscape(s[1..], inAttribute);
      UnescapeEscapeChar(s[0], inAttribute, Escape(s[1..], inAttribute));
      assert [s[0]] + s[1..] == s;
    }
  }

  /** `prefix:local`, or just `local` when the prefix is empty. */
  function QNameText(n: QName): string {
    if n.prefix == [] then n.local else n.prefix + ":" + n.local
  }

  /** ` name="value"` (or with single quotes), the value escaped. */
  function AttributeText(a: Attribute): string {
    var q := if a.singleQuote then "'" else "\"";
    " " + QNameText(a.name) + "=" + q + Escape(a.value, true) + q
  }

  function AttributesText(attrs: seq<Attribute>): string
    decreases |attrs|
  {
    if attrs == [] then [] else AttributeText(attrs[0]) + AttributesText(attrs[1..])
  }

  /** ` xmlns:prefix="ns"`, or ` xmlns="ns"` for the default namespace. */
  function DeclarationText(b: Binding): string {
    " xmlns" + (if b.prefix == [] then "" else ":" + b.prefix) + "=\"" + Escape(b.ns, true) + "\""
  }

  function DeclarationsText(ds: seq<Binding>): string
    decreases |ds|
  {
    if ds == [] then [] else DeclarationText(ds[0]) + DeclarationsText(ds[1..])
  }

  /**
    A start tag: the name, the attributes in the order they were written, then
    the namespace declarations; closed by `>` (open form) or `/>` (self-closing
    form).
   */
  function StartTagText(name: QName, attrs: seq<Attribute>, ds: seq<Binding>, selfClosing: bool): string {
    "<" + QNameText(name) + AttributesText(attrs) + DeclarationsText(ds) + (if selfClosing then "/>" else ">")
  }

  /** `</prefix:local>`. */
  function EndTagText(name: QName): string {
    "</" + QNameText(name) + ">"
  }

  /**
    The two forms of a start tag carry the same name, attributes and
    declarations and differ only in their terminator: the self-closing form is
    the open form with its final `>` replaced by `/>`.
   */
  lemma SelfClosingIsOpenFormClosed(name: QName, attrs: seq<Attribute>, ds: seq<Binding>)
    ensures var open := StartTagText(name, attrs, ds, false);
      && |open| >= 2 && open[0] == '<' && open[|open| - 1] == '>'
      && StartTagText(name, attrs, ds, true) == open[..|open| - 1] + "/>"
  {
    var body := "<" + QNameText(name) + AttributesText(attrs) + DeclarationsText(ds);
    assert StartTagText(name, attrs, ds, false) == body + ">";
    assert (body + ">")[..|body|] == body;
  }

  /** An attribute value never ends its own quotes early, whatever text was written into it. */
  lemma AttributeValueStaysQuoted(a: Attribute)
    ensures var q := if a.singleQuote then '\'' else '"';
      && var t := AttributeText(a);
      && t[|t| - 1] == q
      && q !in t[|QNameText(a.name)| + 3..|t| - 1]
  {
    var q := if a.singleQuote then "'" else "\"";
    var v := Escape(a.value, true);
    EscapeIsMarkupFree(a.value, true);
    var t := AttributeText(a);
    var lead := " " + QNameText(a.name) + "=" + q;
    assert t == lead + v + q;
    assert t[|lead|..|t| - 1] == v;
  }
}
