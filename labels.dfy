/**
 * The allow-list check at the end of `getPredictedLabel`: the server's
 * `prediction` is accepted when, lower-cased, it is one of four directions.
 */
module Labels {
  import opened Options

  /** The `prediction` field of the server's reply. */
  datatype Prediction =
    | Missing          // absent, `undefined` or `null`
    | Text(s: string)  // a string
    | Other            // any other JSON value: a number, a boolean, an array or an object

  /** The allow-list, in the source's order. */
  const ValidLabels: seq<string> := ["up", "down", "left", "right"]

  predicate IsUpper(c: char)
  {
    'A' <= c <= 'Z'
  }

  /** `toLowerCase` on one character, over ASCII. */
  function LowerChar(c: char): (d: char)
    ensures !IsUpper(d)
    ensures IsUpper(c) ==> 'a' <= d <= 'z' && d as int - 'a' as int == c as int - 'A' as int
    ensures !IsUpper(c) ==> d == c
  {
    if IsUpper(c) then (c as int + 32) as char else c
  }

  /** `String.prototype.toLowerCase`, over ASCII: the string with each letter lower-cased. */
  function ToLower(s: string): (r: string)
    ensures |r| == |s|
    ensures forall i :: 0 <= i < |r| ==> !IsUpper(r[i])
  {
    seq(|s|, i requires 0 <= i < |s| => LowerChar(s[i]))
  }

  /** Case-insensitive equality, one character at a time. */
  predicate EqualsIgnoringCase(a: string, b: string)
  {
    |a| == |b| && forall i :: 0 <= i < |a| ==> LowerChar(a[i]) == LowerChar(b[i])
  }

  /**
   * The label check: a truthy string whose lower-cased form is on the
   * allow-list yields that lower-cased form; everything else yields null.
   * A non-string value either is falsy or makes `toLowerCase` throw, which
   * the surrounding `catch` turns into null as well.
   */
  function CheckLabel(prediction: Prediction): (r: Option<string>)
    ensures r.None? || r.value in ValidLabels
  {
    match prediction
    case Text(s) =>
      if s != "" && ToLower(s) in ValidLabels then Some(ToLower(s)) else None
    case _ => None
  }

  /** Every allowed label is already lower case. */
  lemma LabelsAreLowerCase(l: string)
    requires l in ValidLabels
    ensures ToLower(l) == l
    ensures l != ""
  {
  }

  /** A string is accepted as `l` exactly when `l` is allowed and the string equals it ignoring case. */
  lemma CheckLabelIff(s: string, l: string)
    ensures CheckLabel(Text(s)) == Some(l) <==> l in ValidLabels && EqualsIgnoringCase(s, l)
  {
    if l in ValidLabels {
      LabelsAreLowerCase(l);
      if EqualsIgnoringCase(s, l) {
        assert ToLower(s) == ToLower(l);
      }
    }
  }

  /** Only a string prediction can be accepted; missing and non-string values yield null. */
  lemma NonTextRejected(prediction: Prediction)
    requires !prediction.Text?
    ensures CheckLabel(prediction) == None
  {
  }

  /** An accepted label, sent through the check again, is accepted unchanged. */
  lemma CheckLabelIdempotent(prediction: Prediction)
    requires CheckLabel(prediction).Some?
    ensures CheckLabel(Text(CheckLabel(prediction).value)) == CheckLabel(prediction)
  {
    LabelsAreLowerCase(CheckLabel(prediction).value);
  }

  /** Sample predictions: "Up" gives "up"; "sideways", "" and a missing field give null. */
  lemma CheckLabelExamples()
    ensures CheckLabel(Text("Up")) == Some("up")
    ensures CheckLabel(Text("RIGHT")) == Some("right")
    ensures CheckLabel(Text("sideways")) == None
    ensures CheckLabel(Text("")) == None
    ensures CheckLabel(Missing) == None
  {
    assert ToLower("Up") == "up";
    assert ToLower("RIGHT") == "right";
    CheckLabelIff("sideways", "up");
  }
}
