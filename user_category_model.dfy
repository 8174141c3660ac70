/** The custom-category document: its colour validator, type enum, name bound and unique index. */
module UserCategoryModel {
  import opened Results
  import opened Text

  datatype CategoryType = Income | Expense | Both

  const DefaultIcon: string := "FolderOutlined"
  const DefaultColor: string := "#667eea"
  const DefaultCategoryType: CategoryType := Both
  const MaxCategoryName: nat := 50

  datatype Category = Category(
    categoryId: string, userId: string, name: string, icon: string, color: string,
    categoryType: CategoryType, parentCategory: Option<string>, isDefault: bool, isActive: bool)

  predicate IsHexDigit(c: char) {
    ('0' <= c <= '9') || ('a' <= c <= 'f') || ('A' <= c <= 'F')
  }

  /** The length of the longest prefix of hex digits. */
  function HexPrefix(s: string): (n: nat)
    ensures n <= |s|
    ensures forall k :: 0 <= k < n ==> IsHexDigit(s[k])
    ensures n < |s| ==> !IsHexDigit(s[n])
  {
    if s != [] && IsHexDigit(s[0]) then 1 + HexPrefix(s[1..]) else 0
  }

  /** `/^#([A-Fa-f0-9]{6}|[A-Fa-f0-9]{3})$/`, read left to right: the hash, then a hex run that ends the string. */
  predicate MatchesHexColor(s: string) {
    |s| >= 1 && s[0] == '#' && HexPrefix(s[1..]) == |s| - 1 && (|s| - 1 == 6 || |s| - 1 == 3)
  }

  /** A colour is valid exactly when it is '#' and then three or six hex digits, in either case. */
  lemma HexColorIff(s: string)
    ensures MatchesHexColor(s) <==>
      (|s| == 4 || |s| == 7) && s[0] == '#' && forall k :: 1 <= k < |s| ==> IsHexDigit(s[k])
  {
    if |s| >= 1 && (|s| == 4 || |s| == 7) && s[0] == '#' && (forall k :: 1 <= k < |s| ==> IsHexDigit(s[k])) {
      var rest := s[1..];
      assert forall k :: 0 <= k < |rest| ==> IsHexDigit(rest[k]) by {
        forall k | 0 <= k < |rest| ensures IsHexDigit(rest[k]) {
          assert rest[k] == s[k + 1];
        }
      }
      AllHexIsFullPrefix(rest);
    }
  }

  lemma {:induction false} AllHexIsFullPrefix(s: string)
    requires forall k :: 0 <= k < |s| ==> IsHexDigit(s[k])
    ensures HexPrefix(s) == |s|
  {
    if s != [] {
      assert forall k :: 0 <= k < |s[1..]| ==> IsHexDigit(s[1..][k]) by {
        forall k | 0 <= k < |s[1..]| ensures IsHexDigit(s[1..][k]) {
          assert s[1..][k] == s[k + 1];
        }
      }
      AllHexIsFullPrefix(s[1..]);
    }
  }

  /** The default colour passes its own validator; a few near misses do not. */
  lemma ColorExamples()
    ensures MatchesHexColor(DefaultColor)
    ensures MatchesHexColor("#FFF")
    ensures !MatchesHexColor("#ffff") && !MatchesHexColor("667eea") && !MatchesHexColor("#66g")
  {
    HexColorIff(DefaultColor);
    HexColorIff("#FFF");
    HexColorIff("#66g");
    assert !IsHexDigit("#66g"[3]);
  }

  /** The schema's field rules: a required, trimmed name of at most 50 characters and a hex colour. */
  predicate FieldsValid(c: Category) {
    c.name != [] && |c.name| <= MaxCategoryName && MatchesHexColor(c.color)
  }

  /** The unique index `(expenseAppUserId, name)` lets `c` join the documents `others`, soft-deleted ones included. */
  predicate IndexAdmits(others: seq<Category>, c: Category) {
    forall k :: 0 <= k < |others| ==> !(others[k].userId == c.userId && others[k].name == c.name)
  }

  predicate UniqueNames(store: seq<Category>) {
    forall i, j :: 0 <= i < j < |store| ==> !(store[i].userId == store[j].userId && store[i].name == store[j].name)
  }

  lemma AppendKeepsUniqueNames(store: seq<Category>, c: Category)
    requires UniqueNames(store) && IndexAdmits(store, c)
    ensures UniqueNames(store + [c])
  {
  }

  lemma ReplaceKeepsUniqueNames(store: seq<Category>, k: nat, c: Category)
    requires k < |store| && UniqueNames(store)
    requires IndexAdmits(store[..k] + store[k + 1..], c)
    ensures UniqueNames(store[k := c])
  {
    var others := store[..k] + store[k + 1..];
    var updated := store[k := c];
    forall i, j | 0 <= i < j < |updated|
      ensures !(updated[i].userId == updated[j].userId && updated[i].name == updated[j].name)
    {
      if i == k {
        assert others[j - 1] == store[j];
      } else if j == k {
        assert others[i] == store[i];
      }
    }
  }

  /** Saving a document: the trim setter, the field validators, the unique index. */
  function SaveCategory(others: seq<Category>, c: Category): (r: Result<Category>)
    ensures r.Ok? <==> FieldsValid(c.(name := Trim(c.name))) && IndexAdmits(others, c.(name := Trim(c.name)))
    ensures r.Ok? ==> r.value == c.(name := Trim(c.name))
    ensures r.Fail? ==> r.failure == SaveRejected
  {
    var n := c.(name := Trim(c.name));
    if FieldsValid(n) && IndexAdmits(others, n) then Ok(n) else Fail(SaveRejected)
  }
}
