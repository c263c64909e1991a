// The method-name resolver, getMethodName (language.js:612-640; the same
// code is at index.js:14-42). It turns a hovered `.function` or `.property`
// element into the key under which the documentation tables store it.
//
// The element is seen through two inputs. `content` is the element's
// textContent. `before` is the text of the enclosing <pre> from its start up
// to the element (what `Range.toString` yields), or None when the element
// has no enclosing <pre>.
module MethodNames {
  import opened Wrappers
  import opened JsStrings

  /** The namespaces the prefix pattern `(Object|Math|Number|Array)` names. */
  const Namespaces: set<string> := {"Object", "Math", "Number", "Array"}

  predicate EndsWith(s: string, suffix: string) {
    |suffix| <= |s| && s[|s| - |suffix|..] == suffix
  }

  /** The namespace that `/(Object|Math|Number|Array)\.\s*$/` captures in
      `before`, or None when the pattern does not match. The pattern is
      anchored at the end and the dot is not white space. So it matches
      exactly when the text without its trailing white space ends with one
      of the four names and then a dot. The name may sit inside a longer
      word ("MyObject."): the pattern has no word boundary. */
  function NamespaceBefore(before: string): (ns: Option<string>)
    ensures ns.Some? ==> ns.value in Namespaces
    ensures ns.Some? ==>
              var s := TrimEnd(before);
              |ns.value| < |s| && s[|s| - 1] == '.' && s[|s| - 1 - |ns.value|..|s| - 1] == ns.value
  {
    var s := TrimEnd(before);
    if |s| > 0 && s[|s| - 1] == '.' then
      var head := s[..|s| - 1];
      var ns := NamespaceSuffix(head);
      if ns.Some? then
        assert head[|head| - |ns.value|..] == s[|s| - 1 - |ns.value|..|s| - 1];
        ns
      else None
    else None
  }

  /** The alternation `(Object|Math|Number|Array)` anchored at the end of
      `head`, tried in the pattern's order. */
  function NamespaceSuffix(head: string): (ns: Option<string>)
    ensures ns.Some? ==> ns.value in Namespaces && EndsWith(head, ns.value)
  {
    if EndsWith(head, "Object") then Some("Object")
    else if EndsWith(head, "Math") then Some("Math")
    else if EndsWith(head, "Number") then Some("Number")
    else if EndsWith(head, "Array") then Some("Array")
    else None
  }

  /** A suffix fixes the last character. */
  lemma LastOfSuffix(head: string, suffix: string)
    requires |suffix| > 0
    ensures EndsWith(head, suffix) ==> head[|head| - 1] == suffix[|suffix| - 1]
  {
    if EndsWith(head, suffix) {
      assert head[|head| - |suffix|..][|suffix| - 1] == suffix[|suffix| - 1];
    }
  }

  /** The four names end in different letters, so a text ending in one of
      them ends in no other, and the alternation captures that one. */
  lemma NamespaceSuffixOf(prefix: string, ns: string)
    requires ns in Namespaces
    ensures NamespaceSuffix(prefix + ns) == Some(ns)
  {
    var head := prefix + ns;
    assert head[|head| - |ns|..] == ns;
    assert EndsWith(head, ns);
    assert head[|head| - 1] == ns[|ns| - 1];
    if ns != "Object" {
      LastOfSuffix(head, "Object");
      if ns != "Math" {
        LastOfSuffix(head, "Math");
        if ns != "Number" {
          LastOfSuffix(head, "Number");
        }
      }
    }
  }

  /** `/new\s+$/`: the text ends with "new" and then at least one white
      space character. */
  predicate EndsWithNewKeyword(before: string)
    ensures EndsWithNewKeyword(before) ==>
              |before| > 3 && IsWhitespace(before[|before| - 1]) && EndsWith(TrimEnd(before), "new")
  {
    var s := TrimEnd(before);
    |s| < |before| && EndsWith(s, "new")
  }

  /** Any text ending in "new" and then white space matches `/new\s+$/`,
      also when "new" ends a longer word: the pattern has no word boundary. */
  lemma NewKeywordComplete(prefix: string, ws: string)
    requires |ws| > 0 && AllWhitespace(ws)
    ensures EndsWithNewKeyword(prefix + "new" + ws)
  {
    TrimEndPadded(prefix + "new", ws);
  }

  /** getMethodName on the trimmed text. No enclosing <pre>: the text itself.
      A namespace prefix before the element: "Namespace.text". Otherwise the
      text, also on the `new Map`/`new Set` path, whose result is the
      same text. */
  function Resolve(text: string, before: Option<string>): (key: string)
    ensures before.None? ==> key == text
    ensures before.Some? && NamespaceBefore(before.value).Some? ==>
              key == NamespaceBefore(before.value).value + "." + text
    ensures before.Some? && NamespaceBefore(before.value).None? ==> key == text
    ensures key == text || exists ns :: ns in Namespaces && key == ns + "." + text
  {
    match before
    case None => text
    case Some(b) =>
      match NamespaceBefore(b)
      case Some(ns) => ns + "." + text
      case None =>
        if (text == "Map" || text == "Set") && EndsWithNewKeyword(b) then text else text
  }

  /** The whole of getMethodName: trim the element's text, then resolve. */
  function MethodName(content: string, before: Option<string>): (key: string)
    ensures before.None? ==> key == Trim(content)
  {
    Resolve(Trim(content), before)
  }

  /** Whatever precedes the prefix, a namespace, a dot and white space make
      the pattern match with that namespace. */
  lemma NamespaceBeforeComplete(prefix: string, ns: string, ws: string)
    requires ns in Namespaces && AllWhitespace(ws)
    ensures NamespaceBefore(prefix + ns + "." + ws) == Some(ns)
  {
    var t := prefix + ns + ".";
    TrimEndPadded(t, ws);
    assert TrimEnd(t + ws) == t;
    var head := t[..|t| - 1];
    assert head == prefix + ns;
    NamespaceSuffixOf(prefix, ns);
  }

  /** The slice arithmetic behind NamespaceBeforeSound: a name and a dot at
      the end of a prefix `s` of `before`, followed in `before` by white
      space only. */
  lemma NameBeforeTrailingSpace(before: string, s: string, ns: string)
    requires |s| <= |before| && s == before[..|s|] && AllWhitespace(before[|s|..])
    requires |ns| < |s| && s[|s| - 1] == '.' && s[|s| - 1 - |ns|..|s| - 1] == ns
    ensures var k := |s| - 1 - |ns|;
            before[k..k + |ns|] == ns && before[k + |ns|] == '.'
            && AllWhitespace(before[k + |ns| + 1..])
  {
    var k := |s| - 1 - |ns|;
    assert before[k..k + |ns|] == s[k..k + |ns|];
    assert before[k + |ns| + 1..] == before[|s|..];
  }

  /** When the pattern matches, `before` really holds the captured
      namespace at some position k, then a dot, then nothing but white
      space. */
  lemma NamespaceBeforeSound(before: string, ns: string)
    requires NamespaceBefore(before) == Some(ns)
    ensures var k := |TrimEnd(before)| - 1 - |ns|;
            0 <= k && before[k..k + |ns|] == ns && before[k + |ns|] == '.'
            && AllWhitespace(before[k + |ns| + 1..])
  {
    NameBeforeTrailingSpace(before, TrimEnd(before), ns);
  }

  /** The resolver's key for a namespaced call: text after
      "Object.", "Math.", "Number." or "Array." (plus any white space) is
      looked up under "Namespace.text". */
  lemma ResolveNamespaced(text: string, prefix: string, ns: string, ws: string)
    requires ns in Namespaces && AllWhitespace(ws)
    ensures Resolve(text, Some(prefix + ns + "." + ws)) == ns + "." + text
  {
    NamespaceBeforeComplete(prefix, ns, ws);
  }

  /** `Object.keys(obj)` with "keys" hovered. */
  lemma ObjectKeysExample()
    ensures Resolve("keys", Some("Object.")) == "Object.keys"
  {
    assert "Object." == "" + "Object" + "." + "";
    assert "Object" + "." + "keys" == "Object.keys";
    ResolveNamespaced("keys", "", "Object", "");
  }

  /** Without a word boundary a longer word ending in a namespace name
      counts as that namespace. */
  lemma NoWordBoundaryExample()
    ensures Resolve("keys", Some("MyObject.")) == "Object.keys"
  {
    assert "MyObject." == "My" + "Object" + "." + "";
    assert "Object" + "." + "keys" == "Object.keys";
    ResolveNamespaced("keys", "My", "Object", "");
  }

  /** `new Map()` with "Map" hovered keeps the bare name. */
  lemma NewMapExample()
    ensures Resolve("Map", Some("new ")) == "Map"
  {
    assert TrimEnd("new ") == "new" by {
      TrimEndPadded("new", " ");
      assert "new" + " " == "new ";
    }
  }
}
