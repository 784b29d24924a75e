/**
 * The prompt-matching strategy shared by the step-plan selector and the
 * canned-response selector: lower-case the prompt, then walk an ordered list
 * of lower-case keys and pick the first one the prompt contains.
 */
module PromptMatch {
  import opened Wrappers

  /** The key of the SpaceX entry in both lookup tables. */
  const SpaceXKey: string := "summarize latest news about spacex"
  /** The key of the marketing entry in both lookup tables. */
  const MarketingKey: string := "create a marketing plan for a new product"

  predicate IsUpper(c: char) {
    'A' <= c <= 'Z'
  }

  /** ASCII lower-casing of one character; every other character is kept. */
  function LowerChar(c: char): (d: char)
    ensures !IsUpper(d)
    ensures !IsUpper(c) ==> d == c
    ensures IsUpper(c) ==> d as int == c as int + 32
  {
    if IsUpper(c) then (c as int + 32) as char else c
  }

  /** `String.prototype.toLowerCase`, restricted to ASCII letters. */
  function ToLower(s: string): (r: string)
    ensures |r| == |s|
    ensures forall i :: 0 <= i < |s| ==> r[i] == LowerChar(s[i])
  {
    if s == [] then [] else [LowerChar(s[0])] + ToLower(s[1..])
  }

  predicate IsLowerCase(s: string) {
    forall i :: 0 <= i < |s| ==> !IsUpper(s[i])
  }

  /** Lower-casing yields a lower-case string, and lower-case strings are left alone. */
  lemma ToLowerNormalises(s: string)
    ensures IsLowerCase(ToLower(s))
    ensures ToLower(ToLower(s)) == ToLower(s)
    ensures IsLowerCase(s) ==> ToLower(s) == s
  {
  }

  /** Lower-casing works character by character, so it distributes over concatenation. */
  lemma ToLowerAppend(a: string, b: string)
    ensures ToLower(a + b) == ToLower(a) + ToLower(b)
  {
    assert forall i :: 0 <= i < |a + b| ==> ToLower(a + b)[i] == (ToLower(a) + ToLower(b))[i];
  }

  /** `key` starts `s`. */
  predicate StartsWith(s: string, key: string) {
    |key| <= |s| && s[..|key|] == key
  }

  /** `key` occurs in `s` starting at position `i`. */
  predicate OccursAt(s: string, key: string, i: int) {
    0 <= i && i + |key| <= |s| && s[i..i + |key|] == key
  }

  /** `String.prototype.includes`: `key` is a contiguous substring of `s`. */
  function Contains(s: string, key: string): (b: bool)
    ensures b ==> |key| <= |s|
  {
    StartsWith(s, key) || (s != [] && Contains(s[1..], key))
  }

  /** The recursive search agrees with the definition by position: both directions. */
  lemma {:induction false} ContainsIffOccurs(s: string, key: string)
    ensures Contains(s, key) <==> exists i :: OccursAt(s, key, i)
  {
    if StartsWith(s, key) {
      assert OccursAt(s, key, 0);
    } else if s == [] {
    } else {
      ContainsIffOccurs(s[1..], key);
      if exists i :: OccursAt(s, key, i) {
        var i :| OccursAt(s, key, i);
        assert s[1..][i - 1..i - 1 + |key|] == s[i..i + |key|];
        assert OccursAt(s[1..], key, i - 1);
      }
      if exists j :: OccursAt(s[1..], key, j) {
        var j :| OccursAt(s[1..], key, j);
        assert s[1..][j..j + |key|] == s[j + 1..j + 1 + |key|];
        assert OccursAt(s, key, j + 1);
      }
    }
  }

  /** A key is found whatever text surrounds it. */
  lemma {:induction false} ContainsInfix(a: string, key: string, b: string)
    ensures Contains(a + key + b, key)
  {
    if a == [] {
      assert a + key + b == key + b;
      assert (key + b)[..|key|] == key;
    } else {
      ContainsInfix(a[1..], key, b);
      assert (a + key + b)[1..] == a[1..] + key + b;
    }
  }

  /** Every character of a contained key occurs in the text. */
  lemma {:induction false} ContainsChars(s: string, key: string, c: char)
    requires Contains(s, key)
    requires c in key
    ensures c in s
  {
    if StartsWith(s, key) {
      assert key == s[..|key|];
    } else {
      ContainsChars(s[1..], key, c);
    }
  }

  /** The id of the k-th entry (1-based) of a list of at most nine: the prefix and one digit. */
  function NumberedId(prefix: string, k: nat): (id: string)
    requires 1 <= k <= 9
    ensures |id| == |prefix| + 1 && id[..|prefix|] == prefix
    ensures id[|prefix|] as int == '0' as int + k
  {
    prefix + [('0' as int + k) as char]
  }

  /** The keys of an ordered table, in order. */
  function Keys<T>(table: seq<(string, T)>): (keys: seq<string>)
    ensures |keys| == |table|
    ensures forall i :: 0 <= i < |table| ==> keys[i] == table[i].0
  {
    seq(|table|, i requires 0 <= i < |table| => table[i].0)
  }

  /**
   * The index of the first key in `keys` that `text` contains, or None: the
   * early-return `for ... in` loop over a table's keys.
   */
  function FirstMatch(keys: seq<string>, text: string): (r: Option<nat>)
    ensures r.Some? ==> r.value < |keys| && Contains(text, keys[r.value])
    ensures r.Some? ==> forall j :: 0 <= j < r.value ==> !Contains(text, keys[j])
    ensures r.None? <==> forall j :: 0 <= j < |keys| ==> !Contains(text, keys[j])
  {
    if keys == [] then None
    else if Contains(text, keys[0]) then Some(0)
    else match FirstMatch(keys[1..], text)
      case Some(k) => Some(k + 1)
      case None => None
  }

  /** A key that is contained is never passed over: the search stops at it or before. */
  lemma FirstMatchStopsBy(keys: seq<string>, text: string, k: nat)
    requires k < |keys| && Contains(text, keys[k])
    ensures FirstMatch(keys, text).Some? && FirstMatch(keys, text).value <= k
  {
  }
}
