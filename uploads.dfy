/** The image-upload filter of the admin accommodation forms (app.py). */
module Uploads {
  import opened Common

  /** The file extensions accepted for listing images. */
  const AllowedExtensions: set<string> := {"png", "jpg", "jpeg", "gif"}

  /** Lower-cases an ASCII capital letter and leaves every other character alone. */
  function LowerChar(c: char): (d: char)
    ensures 'A' <= c <= 'Z' ==> d as int == c as int + 32
    ensures !('A' <= c <= 'Z') ==> d == c
  {
    if 'A' <= c <= 'Z' then (c as int + 32) as char else c
  }

  function Lower(s: string): (r: string)
    ensures |r| == |s| && forall i :: 0 <= i < |s| ==> r[i] == LowerChar(s[i])
  {
    if s == [] then [] else [LowerChar(s[0])] + Lower(s[1..])
  }

  /** The position of the last `.` in the name, or None when it has none. */
  function LastDot(s: string): (r: Option<nat>)
    ensures r.None? ==> forall j :: 0 <= j < |s| ==> s[j] != '.'
    ensures r.Some? ==> r.value < |s| && s[r.value] == '.' && forall j :: r.value < j < |s| ==> s[j] != '.'
    decreases |s|
  {
    if s == [] then None
    else if s[|s| - 1] == '.' then Some(|s| - 1)
    else LastDot(s[..|s| - 1])
  }

  /** A file name is accepted when it has a `.` and the text after its last `.`, lower-cased, is an accepted extension. */
  function AllowedFile(name: string): (ok: bool)
    ensures ok <==>
      exists k :: 0 <= k < |name| && name[k] == '.'
        && (forall j :: k < j < |name| ==> name[j] != '.')
        && Lower(name[k + 1..]) in AllowedExtensions
  {
    match LastDot(name)
    case None => false
    case Some(k) => Lower(name[k + 1..]) in AllowedExtensions
  }

  /** Names without a dot are refused. */
  lemma NoDotRefused(name: string)
    requires forall j :: 0 <= j < |name| ==> name[j] != '.'
    ensures !AllowedFile(name)
  {
  }

  /** Only the text after the last dot decides: `stem.ext` is accepted exactly when `ext`, lower-cased, is accepted, whatever dots `stem` holds. */
  lemma LastExtensionDecides(stem: string, ext: string)
    requires forall j :: 0 <= j < |ext| ==> ext[j] != '.'
    ensures AllowedFile(stem + "." + ext) <==> Lower(ext) in AllowedExtensions
  {
    var name := stem + "." + ext;
    var k := |stem|;
    assert name[k] == '.';
    assert name[k + 1..] == ext;
    var last := LastDot(name);
    assert last.Some?;
    assert last.value == k;
  }
}
