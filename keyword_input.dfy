/**
 * The keyword editor (components/KeywordInput.tsx): a text field whose Enter key adds
 * the trimmed text to the parent's keyword list unless it is already there, and chips
 * whose close button removes a keyword.
 */
module KeywordInput {
  import opened Wrappers
  import JsText

  /** No keyword appears twice. */
  predicate NoDuplicates(ks: seq<string>) {
    forall i, j :: 0 <= i < j < |ks| ==> ks[i] != ks[j]
  }

  /**
   * The list the Enter handler passes to `onChange` for the text `input`: the trimmed
   * text appended at the end, or nothing when the text is blank or already listed.
   */
  function AddKeyword(value: seq<string>, input: string): (r: Option<seq<string>>)
    ensures r.Some? <==> !JsText.IsBlank(input) && JsText.Trim(input) !in value
    ensures r.Some? ==> r.value == value + [JsText.Trim(input)]
  {
    if JsText.IsBlank(input) then None
    else
      var keyword := JsText.Trim(input);
      if keyword in value then None else Some(value + [keyword])
  }

  /** `removeKeyword`: `value.filter(keyword => keyword !== k)`. */
  function RemoveKeyword(value: seq<string>, k: string): (r: seq<string>)
    ensures |r| <= |value|
    ensures forall x :: x in r <==> x in value && x != k
  {
    if value == [] then []
    else (if value[0] == k then [] else [value[0]]) + RemoveKeyword(value[1..], k)
  }

  /** The editor's own state, the text typed so far. */
  class Editor {
    var inputValue: string

    constructor ()
      ensures inputValue == ""
    {
      inputValue := "";
    }

    /** The input's `onChange`. */
    method SetInput(text: string)
      modifies this
      ensures inputValue == text
    {
      inputValue := text;
    }

    /**
     * `handleKeyDown`. `prevented` says whether the key's default action (submitting the
     * enclosing form) is suppressed; `changed` is the list given to `onChange`, if called.
     */
    method HandleKeyDown(key: string, value: seq<string>) returns (prevented: bool, changed: Option<seq<string>>)
      modifies this
      ensures prevented <==> key == "Enter" && !JsText.IsBlank(old(inputValue))
      ensures !prevented ==> changed == None && inputValue == old(inputValue)
      ensures prevented ==> changed == AddKeyword(value, old(inputValue)) && inputValue == ""
    {
      prevented := false;
      changed := None;
      if key == "Enter" && JsText.Trim(inputValue) != "" {
        prevented := true;
        var newKeyword := JsText.Trim(inputValue);
        if newKeyword !in value {
          changed := Some(value + [newKeyword]);
        }
        inputValue := "";
      }
    }

    /** The chip's close button. */
    method RemoveChip(value: seq<string>, k: string) returns (changed: seq<string>)
      ensures changed == RemoveKeyword(value, k)
      ensures k !in changed
    {
      changed := RemoveKeyword(value, k);
    }
  }

  /** Adding keeps the list free of duplicates. */
  lemma AddPreservesNoDuplicates(value: seq<string>, input: string)
    requires NoDuplicates(value)
    ensures NoDuplicates(AddKeyword(value, input).GetOr(value))
  {
  }

  /** An added keyword is non-empty and has no leading or trailing whitespace. */
  lemma AddedKeywordIsTrimmed(value: seq<string>, input: string)
    requires AddKeyword(value, input).Some?
    ensures var k := Last(AddKeyword(value, input).value);
      k != "" && JsText.Trim(k) == k
  {
  }

  function Last(s: seq<string>): string
    requires s != []
  {
    s[|s| - 1]
  }

  /** Removing keeps the list free of duplicates. */
  lemma {:induction false} RemovePreservesNoDuplicates(value: seq<string>, k: string)
    requires NoDuplicates(value)
    ensures NoDuplicates(RemoveKeyword(value, k))
  {
    if value != [] {
      RemovePreservesNoDuplicates(value[1..], k);
      var rest := RemoveKeyword(value[1..], k);
      if value[0] != k {
        assert value[0] !in value[1..] by {
          forall j | 0 <= j < |value[1..]| ensures value[1..][j] != value[0] {
            assert value[1..][j] == value[j + 1];
          }
        }
        var r := [value[0]] + rest;
        forall a, b | 0 <= a < b < |r| ensures r[a] != r[b] {
          if a == 0 {
            assert r[b] in rest;
          } else {
            assert r[a] == rest[a - 1] && r[b] == rest[b - 1];
          }
        }
      }
    }
  }

  /** Removing works piecewise, so the keywords that stay keep their relative order. */
  lemma {:induction false} RemoveKeywordConcat(a: seq<string>, b: seq<string>, k: string)
    ensures RemoveKeyword(a + b, k) == RemoveKeyword(a, k) + RemoveKeyword(b, k)
  {
    if a == [] {
      assert a + b == b;
    } else {
      assert (a + b)[1..] == a[1..] + b;
      RemoveKeywordConcat(a[1..], b, k);
    }
  }

  /** Removing a keyword that is not listed changes nothing. */
  lemma {:induction false} RemoveAbsent(value: seq<string>, k: string)
    requires k !in value
    ensures RemoveKeyword(value, k) == value
  {
    if value != [] {
      RemoveAbsent(value[1..], k);
      assert value == [value[0]] + value[1..];
    }
  }

  /** Removing the keyword just added restores the list. */
  lemma RemoveUndoesAdd(value: seq<string>, input: string)
    requires AddKeyword(value, input).Some?
    ensures RemoveKeyword(AddKeyword(value, input).value, JsText.Trim(input)) == value
  {
    var k := JsText.Trim(input);
    RemoveKeywordConcat(value, [k], k);
    RemoveAbsent(value, k);
    assert RemoveKeyword([k], k) == [] by {
      assert [k][1..] == [];
    }
  }
}
