/** What a collector hands to the metric sink, and the key cleaning two collectors share. */
module Metrics {
  import opened Text

  /** One published data point: dotted name, value, number of decimal places. */
  datatype Point = Point(name: string, value: real, precision: nat)

  /**
   * The key cleaning of the nginx and nodetool collectors: every space becomes `_`, then every
   * opening and every closing parenthesis is dropped.
   */
  function Sanitize(key: string): (r: string)
    ensures ' ' !in r && '(' !in r && ')' !in r
    ensures |r| <= |key|
  {
    var spaced := ReplaceChar(key, ' ', '_');
    RemoveCharMembers(spaced, '(');
    RemoveCharMembers(RemoveChar(spaced, '('), ')');
    RemoveChar(RemoveChar(spaced, '('), ')')
  }

  /** Cleaning a clean key changes nothing, so cleaning twice is cleaning once. */
  lemma SanitizeIdempotent(key: string)
    ensures Sanitize(Sanitize(key)) == Sanitize(key)
  {
    var r := Sanitize(key);
    assert ReplaceChar(r, ' ', '_') == r;
    RemoveCharAbsent(r, '(');
    RemoveCharAbsent(r, ')');
  }

  /**
   * Cleaning works character by character: it distributes over concatenation, turns a space into
   * `_`, deletes a parenthesis and keeps every other character.
   */
  lemma SanitizeCharwise(a: string, b: string, c: char)
    ensures Sanitize(a + b) == Sanitize(a) + Sanitize(b)
    ensures Sanitize([c]) == if c == ' ' then "_" else if c == '(' || c == ')' then "" else [c]
  {
    ReplaceCharAppend(a, b, ' ', '_');
    var x, y := ReplaceChar(a, ' ', '_'), ReplaceChar(b, ' ', '_');
    RemoveCharAppend(x, y, '(');
    RemoveCharAppend(RemoveChar(x, '('), RemoveChar(y, '('), ')');
  }
}
