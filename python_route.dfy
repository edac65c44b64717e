/** The text returned by the four route handlers of the Flask application
    (web_flask/3-python_route.py). Each handler is a single expression over its
    URL argument, so each is a pure function here. */
module PythonRoute {

  /** The text a `/python/` request uses when no text is given in the URL. */
  const DefaultPythonText: string := "is cool"

  /** Python's `text.replace('_', ' ')`: every underscore becomes a space and every
      other character is kept, one character for one. */
  function ReplaceUnderscores(text: string): (r: string)
    ensures |r| == |text|
    ensures forall i :: 0 <= i < |text| ==> r[i] == (if text[i] == '_' then ' ' else text[i])
  {
    if text == [] then []
    else
      var last := text[|text| - 1];
      ReplaceUnderscores(text[..|text| - 1]) + [if last == '_' then ' ' else last]
  }

  /** `'<prefix> {}'.format(text.replace('_', ' '))`, shared by the two text routes. */
  function Display(prefix: string, text: string): (r: string)
    ensures |r| == |prefix| + |text|
    ensures r[..|prefix|] == prefix
    ensures forall i :: 0 <= i < |text| && text[i] != '_' ==> r[|prefix| + i] == text[i]
    ensures forall i :: 0 <= i < |text| && text[i] == '_' ==> r[|prefix| + i] == ' '
    ensures '_' !in prefix ==> '_' !in r
  {
    prefix + ReplaceUnderscores(text)
  }

  /** Route `/`. */
  function HelloHbnb(): (r: string)
    ensures r == "Hello HBNB!"
  {
    "Hello HBNB!"
  }

  /** Route `/hbnb`. */
  function Hbnb(): (r: string)
    ensures r == "HBNB"
  {
    "HBNB"
  }

  /** Route `/c/<text>`. */
  function DisplayC(text: string): (r: string)
    ensures |r| == 2 + |text|
    ensures r[..2] == "C "
    ensures '_' !in r
    ensures forall i :: 0 <= i < |text| && text[i] != '_' ==> r[2 + i] == text[i]
    ensures forall i :: 0 <= i < |text| && text[i] == '_' ==> r[2 + i] == ' '
  {
    Display("C ", text)
  }

  /** Routes `/python/<text>` and `/python/`; the second uses the default text. */
  function DisplayPython(text: string := DefaultPythonText): (r: string)
    ensures |r| == 7 + |text|
    ensures r[..7] == "Python "
    ensures '_' !in r
    ensures forall i :: 0 <= i < |text| && text[i] != '_' ==> r[7 + i] == text[i]
    ensures forall i :: 0 <= i < |text| && text[i] == '_' ==> r[7 + i] == ' '
  {
    Display("Python ", text)
  }

  /** `/python/` with no text answers "Python is cool". */
  lemma DisplayPythonDefault()
    ensures DisplayPython() == "Python is cool"
  {
  }

  /** The replacement cannot be told apart from its pointwise description:
      any text that agrees with it position by position is the replacement. */
  lemma ReplaceUnderscoresUnique(text: string, s: string)
    requires |s| == |text|
    requires forall i :: 0 <= i < |text| ==> s[i] == (if text[i] == '_' then ' ' else text[i])
    ensures s == ReplaceUnderscores(text)
  {
  }

  /** Converting a text that was already converted changes nothing. */
  lemma ReplaceUnderscoresIdempotent(text: string)
    ensures ReplaceUnderscores(ReplaceUnderscores(text)) == ReplaceUnderscores(text)
  {
  }

  /** The replacement works character by character, so it splits over a concatenation:
      the handlers can be read one URL segment at a time. */
  lemma ReplaceUnderscoresConcat(a: string, b: string)
    ensures ReplaceUnderscores(a + b) == ReplaceUnderscores(a) + ReplaceUnderscores(b)
  {
  }

  /** A text without underscores is shown unchanged after the prefix. */
  lemma DisplayWithoutUnderscores(prefix: string, text: string)
    requires '_' !in text
    ensures Display(prefix, text) == prefix + text
  {
  }
}
