/** The tag list helpers of the receipt editor: add, remove, validate. Lists are never mutated; each call returns a new list. */
module TagUtils {
  import opened Strings

  /** No tag occurs twice. */
  predicate Distinct(tags: seq<string>) {
    forall i, j :: 0 <= i < j < |tags| ==> tags[i] != tags[j]
  }

  /** `addTag(tags, newTag)`: an empty or already present tag leaves the list as it is; otherwise it goes at the end. */
  function AddTag(tags: seq<string>, newTag: string): (r: seq<string>)
    ensures |tags| <= |r| <= |tags| + 1 && r[..|tags|] == tags
    ensures forall t :: t in r <==> t in tags || (t == newTag && newTag != "")
    ensures newTag == "" || newTag in tags ==> r == tags
  {
    if newTag == "" || newTag in tags then tags else tags + [newTag]
  }

  /** Adding never introduces a duplicate. */
  lemma AddTagKeepsDistinct(tags: seq<string>, newTag: string)
    requires Distinct(tags)
    ensures Distinct(AddTag(tags, newTag))
  {
  }

  /** `removeTag(tags, tagToRemove)`: every occurrence goes, every other tag stays with its multiplicity. */
  function RemoveTag(tags: seq<string>, tagToRemove: string): (r: seq<string>)
    ensures tagToRemove !in r
    ensures forall t :: t != tagToRemove ==> multiset(r)[t] == multiset(tags)[t]
    ensures |r| <= |tags|
  {
    if tags == [] then []
    else
      assert tags == [tags[0]] + tags[1..];
      (if tags[0] == tagToRemove then [] else [tags[0]]) + RemoveTag(tags[1..], tagToRemove)
  }

  /** Removal keeps order: it distributes over concatenation. */
  lemma {:induction false} RemoveTagAppend(a: seq<string>, b: seq<string>, x: string)
    ensures RemoveTag(a + b, x) == RemoveTag(a, x) + RemoveTag(b, x)
  {
    if a == [] {
      assert a + b == b;
    } else {
      AppendTail(a, b);
      RemoveTagAppend(a[1..], b, x);
      var k: seq<string> := if a[0] == x then [] else [a[0]];
      AppendAssoc(k, RemoveTag(a[1..], x), RemoveTag(b, x));
    }
  }

  /** Removing a tag that is not there changes nothing. */
  lemma {:induction false} RemoveAbsentTag(tags: seq<string>, x: string)
    requires x !in tags
    ensures RemoveTag(tags, x) == tags
  {
    if tags != [] {
      RemoveAbsentTag(tags[1..], x);
    }
  }

  /** Removing twice is removing once. */
  lemma RemoveTagIdempotent(tags: seq<string>, x: string)
    ensures RemoveTag(RemoveTag(tags, x), x) == RemoveTag(tags, x)
  {
    RemoveAbsentTag(RemoveTag(tags, x), x);
  }

  /** Removal undoes a successful addition. */
  lemma RemoveUndoesAdd(tags: seq<string>, t: string)
    requires t != "" && t !in tags
    ensures RemoveTag(AddTag(tags, t), t) == tags
  {
    RemoveTagAppend(tags, [t], t);
    RemoveAbsentTag(tags, t);
    assert RemoveTag([t], t) == [];
  }

  /** The character class `[a-zA-Z0-9-_ ]`. */
  predicate IsTagChar(c: char) {
    IsAsciiLower(c) || IsAsciiUpper(c) || IsDigit(c) || c == '-' || c == '_' || c == ' '
  }

  /** The pattern `^[a-zA-Z0-9-_ ]{1,20}$` without its length bound, scanned character by character. */
  function AllTagChars(s: string): (r: bool)
    ensures r <==> forall i :: 0 <= i < |s| ==> IsTagChar(s[i])
  {
    if s == [] then true else IsTagChar(s[0]) && AllTagChars(s[1..])
  }

  /** `validateTag(tag)`. */
  function ValidateTag(tag: string): (r: bool)
    ensures r <==> 1 <= |tag| <= 20 && forall i :: 0 <= i < |tag| ==> IsTagChar(tag[i])
  {
    if tag == "" then false
    else |tag| <= 20 && AllTagChars(tag)
  }
}
