/**
 * The query-shaping builder `APIFeatures`: from the parsed query string of a
 * listing request it appends, stage by stage, the operations of a document
 * query (find, sort, select, skip, limit). The query is modelled as the list of
 * operations it was built from; running it against the store is not modelled.
 */
module ApiFeatures {
  import opened Common

  /** A value of the parsed query string: a string, an array (a repeated key)
      or a nested object (`price[gt]=10`). */
  datatype QVal = Str(s: string) | Arr(items: seq<QVal>) | Obj(entries: seq<(string, QVal)>)

  /** The parsed query string, keys in insertion order. */
  type QueryString = seq<(string, QVal)>

  /** The filter argument of one `find` call. */
  datatype Filter =
    | OwnedBy(user: Option<string>)              // { user: req.user?._id }
    | Json(text: string)                         // JSON.parse(text)
    | NamePattern(pattern: string, flags: string) // { name: { $regex: new RegExp(pattern, flags) } }

  /** One operation of the query, in the order it was applied. */
  datatype QueryOp =
    | Find(filter: Filter)
    | SortBy(spec: string)
    | Select(spec: string)
    | Skip(n: int)
    | Limit(n: int)

  // ---------------------------------------------------------------------------
  // reading the query string
  // ---------------------------------------------------------------------------

  /** `queryString[key]`. */
  function Get(qs: QueryString, key: string): (r: Option<QVal>)
    ensures r.Some? <==> exists i :: 0 <= i < |qs| && qs[i].0 == key
    ensures r.Some? ==> exists i :: 0 <= i < |qs| && qs[i] == (key, r.value)
  {
    if qs == [] then None
    else if qs[0].0 == key then Some(qs[0].1)
    else
      var r := Get(qs[1..], key);
      assert forall i :: 0 <= i < |qs| - 1 ==> qs[1..][i] == qs[i + 1];
      r
  }

  /** JavaScript truthiness of a query value: only the empty string is falsy. */
  predicate TruthyValue(v: QVal) {
    !v.Str? || v.s != ""
  }

  /** `String(v)`: arrays are joined with commas, objects print as
      "[object Object]". */
  function ToJsString(v: QVal): string
    decreases v, 1
  {
    match v
    case Str(s) => s
    case Arr(items) => JoinedItems(v, 0)
    case Obj(_) => "[object Object]"
  }

  function JoinedItems(v: QVal, i: nat): string
    requires v.Arr? && i <= |v.items|
    decreases v, 0, |v.items| - i
  {
    if i == |v.items| then ""
    else (if i > 0 then "," else "") + ToJsString(v.items[i]) + JoinedItems(v, i + 1)
  }

  /** `Number(s)` for the strings the model distinguishes: the empty string is
      0, an optional sign followed by decimal digits is that integer, and every
      other string is NaN (`None`). */
  function ToNumber(s: string): (r: Option<int>)
    ensures IsDigits(s) ==> r == Some(DigitsValue(s))
    ensures r.Some? && r.value < 0 ==> s != "" && s[0] == '-'
    ensures r.None? ==> s != "" && !IsDigits(s) && !((s[0] == '-' || s[0] == '+') && IsDigits(s[1..]))
  {
    if s == "" then Some(0)
    else if s[0] == '-' && IsDigits(s[1..]) then Some(-(DigitsValue(s[1..]) as int))
    else if s[0] == '+' && IsDigits(s[1..]) then Some(DigitsValue(s[1..]))
    else if IsDigits(s) then Some(DigitsValue(s))
    else None
  }

  /** The decimal text of a number reads back as that number. */
  lemma ToNumberOfDecimal(n: nat)
    ensures ToNumber(NatToString(n)) == Some(n)
  {
    NatToStringRoundTrip(n);
  }

  // ---------------------------------------------------------------------------
  // filter(): strip the reserved keys, serialise, rewrite the operators
  // ---------------------------------------------------------------------------

  const Excluded: seq<string> := ["page", "sort", "limit", "fields", "search"]

  /** The entries of `qs` whose key is not in `keys`, in their order. */
  function WithoutKeys(qs: QueryString, keys: seq<string>): (r: QueryString)
    ensures |r| <= |qs|
  {
    if qs == [] then []
    else (if qs[0].0 in keys then [] else [qs[0]]) + WithoutKeys(qs[1..], keys)
  }

  /** An entry survives exactly when its key is not deleted. */
  lemma {:induction false} WithoutKeysMembers(qs: QueryString, keys: seq<string>)
    ensures forall e :: e in WithoutKeys(qs, keys) <==> e in qs && e.0 !in keys
  {
    if qs != [] {
      WithoutKeysMembers(qs[1..], keys);
      assert qs == [qs[0]] + qs[1..];
    }
  }

  /** Deleting one more key from a copy that already lacks `keys`. */
  lemma {:induction false} WithoutOneMore(qs: QueryString, keys: seq<string>, k: string)
    ensures WithoutKeys(WithoutKeys(qs, keys), [k]) == WithoutKeys(qs, keys + [k])
  {
    if qs != [] {
      WithoutOneMore(qs[1..], keys, k);
      var head := if qs[0].0 in keys then [] else [qs[0]];
      WithoutAppend(head, WithoutKeys(qs[1..], keys), [k]);
    }
  }

  lemma {:induction false} WithoutAppend(a: QueryString, b: QueryString, keys: seq<string>)
    ensures WithoutKeys(a + b, keys) == WithoutKeys(a, keys) + WithoutKeys(b, keys)
  {
    if a != [] {
      WithoutAppend(a[1..], b, keys);
      assert (a + b)[1..] == a[1..] + b;
      var head := if a[0].0 in keys then [] else [a[0]];
      assert WithoutKeys(a + b, keys) == head + WithoutKeys(a[1..] + b, keys);
    } else {
      assert a + b == b;
    }
  }

  /**
   * `{ ...queryString }` followed by `delete queryObj[item]` for every excluded
   * key: a copy that lacks exactly the reserved keys and keeps every other entry.
   */
  method StripReserved(qs: QueryString) returns (queryObj: QueryString)
    ensures queryObj == WithoutKeys(qs, Excluded)
    ensures forall e :: e in queryObj <==> e in qs && e.0 !in Excluded
  {
    queryObj := DeleteKeys(qs, Excluded);
    WithoutKeysMembers(qs, Excluded);
  }

  /** The copy of `qs` with `delete` applied for each of `keys`, one per step. */
  method DeleteKeys(qs: QueryString, keys: seq<string>) returns (queryObj: QueryString)
    ensures queryObj == WithoutKeys(qs, keys)
  {
    queryObj := qs;
    assert WithoutKeys(qs, []) == qs by { WithoutNothing(qs); }
    var i := 0;
    while i < |keys|
      invariant 0 <= i <= |keys|
      invariant queryObj == WithoutKeys(qs, keys[..i])
    {
      WithoutOneMore(qs, keys[..i], keys[i]);
      assert keys[..i] + [keys[i]] == keys[..i + 1];
      queryObj := WithoutKeys(queryObj, [keys[i]]);
      i := i + 1;
    }
    assert keys[..i] == keys;
  }

  lemma {:induction false} WithoutNothing(qs: QueryString)
    ensures WithoutKeys(qs, []) == qs
  {
    if qs != [] {
      WithoutNothing(qs[1..]);
    }
  }

  /** `JSON.stringify` of one character inside a string literal. */
  function EscapeChar(c: char): string {
    if c == '"' then "\\\""
    else if c == '\\' then "\\\\"
    else if c as int == 0x08 then "\\b"
    else if c as int == 0x09 then "\\t"
    else if c as int == 0x0A then "\\n"
    else if c as int == 0x0C then "\\f"
    else if c as int == 0x0D then "\\r"
    else if (c as int) < 0x20 then "\\u00" + [HexDigit(c as int / 16), HexDigit(c as int % 16)]
    else [c]
  }

  function Escape(s: string): string {
    if s == "" then "" else EscapeChar(s[0]) + Escape(s[1..])
  }

  function Quote(s: string): string {
    "\"" + Escape(s) + "\""
  }

  /** `JSON.stringify(v)`: no whitespace, object keys in insertion order. */
  function Stringify(v: QVal): (r: string)
    decreases v, 1
    ensures 2 <= |r|
    ensures v.Str? ==> r[0] == '"' && r[|r| - 1] == '"'
    ensures v.Arr? ==> r[0] == '[' && r[|r| - 1] == ']'
    ensures v.Obj? ==> r[0] == '{' && r[|r| - 1] == '}'
  {
    match v
    case Str(s) => Quote(s)
    case Arr(_) => "[" + StringifyItems(v, 0) + "]"
    case Obj(_) => "{" + StringifyEntries(v, 0) + "}"
  }

  function StringifyItems(v: QVal, i: nat): string
    requires v.Arr? && i <= |v.items|
    decreases v, 0, |v.items| - i
  {
    if i == |v.items| then ""
    else (if i > 0 then "," else "") + Stringify(v.items[i]) + StringifyItems(v, i + 1)
  }

  function StringifyEntries(v: QVal, i: nat): string
    requires v.Obj? && i <= |v.entries|
    decreases v, 0, |v.entries| - i
  {
    if i == |v.entries| then ""
    else
      (if i > 0 then "," else "") + Quote(v.entries[i].0) + ":" + Stringify(v.entries[i].1)
      + StringifyEntries(v, i + 1)
  }

  /** The comparison words the filter rewrites. */
  predicate IsOpWord(w: string) {
    2 <= |w| <= 3 && (w[0] == 'l' || w[0] == 'g') && w[1] == 't' && (|w| == 3 ==> w[2] == 'e')
  }

  /** `IsOpWord` accepts exactly the four words of the pattern. */
  lemma OpWords(w: string)
    ensures IsOpWord(w) <==> w in {"lt", "lte", "gt", "gte"}
  {
    if IsOpWord(w) {
      if |w| == 2 {
        assert w == [w[0], w[1]];
      } else {
        assert w == [w[0], w[1], w[2]];
      }
    }
  }

  /** Length of the run of word characters at the start of `s`. */
  function WordRun(s: string): (n: nat)
    ensures n <= |s|
    ensures n < |s| ==> !IsWordChar(s[n])
  {
    if s == [] || !IsWordChar(s[0]) then 0 else 1 + WordRun(s[1..])
  }

  /** The first piece of the rewritten text consumes `Step(s)` characters: a
      whole run of word characters, or one other character. */
  function Step(s: string): (n: nat)
    requires s != []
    ensures 1 <= n <= |s|
  {
    if IsWordChar(s[0]) then WordRun(s) else 1
  }

  /** That first piece as it is emitted: a comparison word gets its `$`. */
  function Piece(s: string): string
    requires s != []
  {
    var w := s[..Step(s)];
    if IsWordChar(s[0]) && IsOpWord(w) then "$" + w else w
  }

  /**
   * `s.replace(/\b(lt|lte|gt|gte)\b/g, m => "$" + m)`. A match must start and
   * end at a word boundary, so it is a whole run of word characters that equals
   * one of the four words; every such run gets a `$` in front.
   */
  function RewriteOps(s: string): (r: string)
    decreases |s|
    ensures |s| <= |r|
    ensures r == [] <==> s == []
  {
    if s == [] then [] else Piece(s) + RewriteOps(s[Step(s)..])
  }

  /** Two pieces that meet at a word boundary are rewritten independently. */
  lemma {:induction false} RewriteAppend(a: string, b: string)
    requires a == [] || b == [] || !IsWordChar(a[|a| - 1]) || !IsWordChar(b[0])
    ensures RewriteOps(a + b) == RewriteOps(a) + RewriteOps(b)
    decreases |a|
  {
    if a == [] {
      assert a + b == b;
    } else {
      var n := Step(a);
      StepAppend(a, b);
      SliceAppend(a, b, n);
      RewriteAppend(a[n..], b);
      assert Piece(a + b) == Piece(a);
      Associative(Piece(a), RewriteOps(a[n..]), RewriteOps(b));
    }
  }

  /** Cutting `a + b` inside `a`. */
  lemma SliceAppend(a: string, b: string, n: nat)
    requires n <= |a|
    ensures (a + b)[..n] == a[..n] && (a + b)[n..] == a[n..] + b
  {
  }

  lemma Associative(x: string, y: string, z: string)
    ensures x + y + z == x + (y + z)
  {
  }

  /** Appending at a word boundary does not change the first step. */
  lemma StepAppend(a: string, b: string)
    requires a != []
    requires b == [] || !IsWordChar(a[|a| - 1]) || !IsWordChar(b[0])
    ensures Step(a + b) == Step(a)
  {
    assert (a + b)[0] == a[0];
    if IsWordChar(a[0]) {
      if WordRun(a) == |a| {
        WordRunLast(a);
      }
      WordRunAppend(a, b);
    }
  }

  /** A run that covers the whole text ends in a word character. */
  lemma {:induction false} WordRunLast(s: string)
    requires s != [] && WordRun(s) == |s|
    ensures IsWordChar(s[|s| - 1])
  {
    if |s| > 1 {
      WordRunLast(s[1..]);
    }
  }

  /** The run at the start of `a` is not lengthened by what follows `a` when
      it ends inside `a` or `b` starts with a non-word character. */
  lemma {:induction false} WordRunAppend(a: string, b: string)
    requires WordRun(a) < |a| || b == [] || !IsWordChar(b[0])
    ensures WordRun(a + b) == WordRun(a)
  {
    if a == [] {
      assert a + b == b;
    } else if IsWordChar(a[0]) {
      assert (a + b)[0] == a[0];
      assert (a + b)[1..] == a[1..] + b;
      WordRunAppend(a[1..], b);
    } else {
      assert (a + b)[0] == a[0];
    }
  }

  /** A comparison word on its own gets its `$`. */
  lemma RewriteOpWord(w: string)
    requires IsOpWord(w)
    ensures RewriteOps(w) == "$" + w
  {
    var n := WordRun(w);
    assert n == |w|;
    assert w[n..] == [];
    assert w[..n] == w;
  }

  /** Every whole comparison word, wherever it stands, gets a `$` in front,
      and the text around it is rewritten on its own. */
  lemma RewriteWholeWord(a: string, w: string, b: string)
    requires IsOpWord(w)
    requires a == [] || !IsWordChar(a[|a| - 1])
    requires b == [] || !IsWordChar(b[0])
    ensures RewriteOps(a + w + b) == RewriteOps(a) + "$" + w + RewriteOps(b)
  {
    RewriteAppend(w, b);
    RewriteOpWord(w);
    RewriteAppend(a, w + b);
    Associative(a, w, b);
    Associative(RewriteOps(a), "$" + w, RewriteOps(b));
    Associative(RewriteOps(a), "$", w);
  }

  /** A text made only of word characters is one run. */
  lemma {:induction false} WordRunWhole(w: string)
    requires forall k :: 0 <= k < |w| ==> IsWordChar(w[k])
    ensures WordRun(w) == |w|
  {
    if w != [] {
      WordRunWhole(w[1..]);
    }
  }

  /** A whole word is rewritten on its own: with a `$` in front exactly when
      it is a comparison word, unchanged otherwise. */
  lemma RewriteWord(w: string)
    requires w != [] && forall k :: 0 <= k < |w| ==> IsWordChar(w[k])
    ensures RewriteOps(w) == if IsOpWord(w) then "$" + w else w
  {
    WordRunWhole(w);
    assert w[..Step(w)] == w;
    assert w[Step(w)..] == [];
    assert RewriteOps(w) == Piece(w) + RewriteOps([]);
  }

  /** Every other word, wherever it stands, is left as it is: no `$` goes in
      front of it. */
  lemma RewriteOtherWord(a: string, w: string, b: string)
    requires w != [] && forall k :: 0 <= k < |w| ==> IsWordChar(w[k])
    requires !IsOpWord(w)
    requires a == [] || !IsWordChar(a[|a| - 1])
    requires b == [] || !IsWordChar(b[0])
    ensures RewriteOps(a + w + b) == RewriteOps(a) + w + RewriteOps(b)
  {
    RewriteAppend(w, b);
    RewriteWord(w);
    RewriteAppend(a, w + b);
    Associative(a, w, b);
    Associative(RewriteOps(a), w, RewriteOps(b));
  }

  /** A character that is not a word character is copied as it is. */
  lemma RewriteOtherChar(c: char, s: string)
    requires !IsWordChar(c)
    ensures RewriteOps([c] + s) == [c] + RewriteOps(s)
  {
    assert ([c] + s)[0] == c;
    assert ([c] + s)[..1] == [c];
    assert ([c] + s)[1..] == s;
  }

  /** The text with every `$` removed. */
  function DropDollars(s: string): string {
    if s == [] then [] else (if s[0] == '$' then [] else [s[0]]) + DropDollars(s[1..])
  }

  lemma {:induction false} DropDollarsAppend(a: string, b: string)
    ensures DropDollars(a + b) == DropDollars(a) + DropDollars(b)
  {
    if a != [] {
      assert (a + b)[0] == a[0];
      assert (a + b)[1..] == a[1..] + b;
      DropDollarsAppend(a[1..], b);
      var head := if a[0] == '$' then [] else [a[0]];
      calc {
        DropDollars(a + b);
        head + DropDollars(a[1..] + b);
        head + (DropDollars(a[1..]) + DropDollars(b));
        (head + DropDollars(a[1..])) + DropDollars(b);
      }
    } else {
      assert a + b == b;
    }
  }

  /** The `$` a piece may carry is the only difference from the text it
      consumed. */
  lemma PieceDollars(s: string)
    requires s != []
    ensures DropDollars(Piece(s)) == DropDollars(s[..Step(s)])
  {
    var w := s[..Step(s)];
    if IsWordChar(s[0]) && IsOpWord(w) {
      assert ("$" + w)[1..] == w;
    }
  }

  /** The rewrite only inserts `$` signs: with them removed, the text is the
      text it started from. */
  lemma {:induction false} RewriteOnlyInsertsDollars(s: string)
    ensures DropDollars(RewriteOps(s)) == DropDollars(s)
    decreases |s|
  {
    if s != [] {
      var n := Step(s);
      RewriteOnlyInsertsDollars(s[n..]);
      DropDollarsAppend(Piece(s), RewriteOps(s[n..]));
      PieceDollars(s);
      SliceAppend(s[..n], s[n..], n);
      assert s[..n] + s[n..] == s;
      DropDollarsAppend(s[..n], s[n..]);
    }
  }

  /** The text `filter()` hands to `JSON.parse`. */
  function FilterText(qs: QueryString): string {
    RewriteOps(Stringify(Obj(WithoutKeys(qs, Excluded))))
  }

  // ---------------------------------------------------------------------------
  // search(), sort(), field(), pagination()
  // ---------------------------------------------------------------------------

  /** What `search()` appends: a case-insensitive prefix pattern on `name`
      exactly when `search` is truthy. The term is not escaped. */
  function SearchOps(qs: QueryString): (ops: seq<QueryOp>)
    ensures |ops| <= 1
    ensures |ops| == 1 <==> Get(qs, "search").Some? && TruthyValue(Get(qs, "search").value)
    ensures |ops| == 1 ==>
      ops[0] == Find(NamePattern("^" + ToJsString(Get(qs, "search").value), "i"))
  {
    match Get(qs, "search")
    case None => []
    case Some(v) => if TruthyValue(v) then [Find(NamePattern("^" + ToJsString(v), "i"))] else []
  }

  /** The argument of `sort()`: the parameter with its commas turned into
      spaces, or "-createdAt" when it is absent or empty; `None` when the
      parameter is an array or object, whose missing `split` throws. */
  function SortArgument(qs: QueryString): (r: Option<string>)
    ensures Get(qs, "sort").None? ==> r == Some("-createdAt")
    ensures Get(qs, "sort") == Some(Str("")) ==> r == Some("-createdAt")
    ensures var p := Get(qs, "sort");
      p.Some? && p.value.Str? && p.value.s != "" ==> r == Some(ReplaceChar(p.value.s, ',', ' '))
    ensures r.None? <==> Get(qs, "sort").Some? && !Get(qs, "sort").value.Str?
  {
    match Get(qs, "sort")
    case None => Some("-createdAt")
    case Some(v) =>
      if !TruthyValue(v) then Some("-createdAt")
      else if v.Str? then SplitJoin(v.s, ',', ' '); Some(Join(Split(v.s, ','), ' '))
      else None
  }

  /** The argument of `select()`: the `fields` parameter with its commas turned
      into spaces, or "-__v"; `None` when `split` throws. */
  function FieldsArgument(qs: QueryString): (r: Option<string>)
    ensures Get(qs, "fields").None? ==> r == Some("-__v")
    ensures Get(qs, "fields") == Some(Str("")) ==> r == Some("-__v")
    ensures var p := Get(qs, "fields");
      p.Some? && p.value.Str? && p.value.s != "" ==> r == Some(ReplaceChar(p.value.s, ',', ' '))
    ensures r.None? <==> Get(qs, "fields").Some? && !Get(qs, "fields").value.Str?
  {
    match Get(qs, "fields")
    case None => Some("-__v")
    case Some(v) =>
      if !TruthyValue(v) then Some("-__v")
      else if v.Str? then SplitJoin(v.s, ',', ' '); Some(Join(Split(v.s, ','), ' '))
      else None
  }

  const PageSize: int := 12

  /** `queryString.page * 1 || 1`: the numeric page, or 1 when the page is
      absent, zero or not a number. */
  function PageNumber(qs: QueryString): (page: int)
    ensures page != 0
    ensures Get(qs, "page").None? ==> page == 1
    ensures Get(qs, "page").Some? ==>
      var n := ToNumber(ToJsString(Get(qs, "page").value));
      (n.None? || n == Some(0) ==> page == 1) && (n.Some? && n.value != 0 ==> page == n.value)
  {
    var n := match Get(qs, "page")
             case None => None
             case Some(v) => ToNumber(ToJsString(v));
    if n.Some? && n.value != 0 then n.value else 1
  }

  /** What `pagination()` appends. */
  function PaginationOps(qs: QueryString): (ops: seq<QueryOp>)
    ensures |ops| == 2 && ops[1] == Limit(PageSize) && ops[0].Skip?
    ensures ops[0].n % PageSize == 0
    ensures ops[0].n == 0 <==> PageNumber(qs) == 1
  {
    [Skip((PageNumber(qs) - 1) * PageSize), Limit(PageSize)]
  }

  /** The page size is always 12 and the skip a whole number of pages; no page
      means no skip. */
  lemma PaginationShape(qs: QueryString)
    ensures var ops := PaginationOps(qs);
      ops[1] == Limit(12) && ops[0].Skip? && ops[0].n % 12 == 0
    ensures Get(qs, "page").None? ==> PaginationOps(qs)[0] == Skip(0)
  {
  }

  /** A page written in decimal is that page: page n skips n - 1 pages. */
  lemma DecimalPage(qs: QueryString, n: nat)
    requires n >= 1 && Get(qs, "page") == Some(Str(NatToString(n)))
    ensures PageNumber(qs) == n
    ensures PaginationOps(qs) == [Skip((n - 1) * 12), Limit(12)]
  {
    ToNumberOfDecimal(n);
  }

  /** Page "0" and a page that is not a number both fall back to page 1. */
  lemma FallbackPage(qs: QueryString)
    requires Get(qs, "page") == Some(Str("0")) || Get(qs, "page") == Some(Str("abc"))
    ensures PageNumber(qs) == 1
  {
    assert !IsDigits("abc") by { assert !('0' <= "abc"[0] <= '9'); }
  }

  lemma {:induction false} GetAppendOther(qs: QueryString, e: (string, QVal), key: string)
    requires e.0 != key
    ensures Get(qs + [e], key) == Get(qs, key)
  {
    if qs != [] {
      assert (qs + [e])[1..] == qs[1..] + [e];
      GetAppendOther(qs[1..], e, key);
    }
  }

  /** Entries under a reserved key are dropped by the filter. */
  lemma ReservedEntryDropped(qs: QueryString, k: string, v: QVal)
    requires k in Excluded
    ensures WithoutKeys(qs + [(k, v)], Excluded) == WithoutKeys(qs, Excluded)
  {
    WithoutAppend(qs, [(k, v)], Excluded);
    assert WithoutKeys([(k, v)], Excluded) == [];
    assert WithoutKeys(qs, Excluded) + [] == WithoutKeys(qs, Excluded);
  }

  /** A `limit` parameter is dropped by the filter. */
  lemma LimitNotFiltered(qs: QueryString, v: QVal)
    ensures FilterText(qs + [("limit", v)]) == FilterText(qs)
  {
    ReservedEntryDropped(qs, "limit", v);
  }

  /** A `limit` parameter never changes the page size, nor the search: the
      client cannot ask for larger pages. */
  lemma LimitParameterIgnored(qs: QueryString, v: QVal)
    ensures PaginationOps(qs + [("limit", v)]) == PaginationOps(qs)
    ensures SearchOps(qs + [("limit", v)]) == SearchOps(qs)
  {
    GetAppendOther(qs, ("limit", v), "page");
    GetAppendOther(qs, ("limit", v), "search");
  }

  /** Nor does it change the sort or the projection. */
  lemma LimitParameterIgnoredBySort(qs: QueryString, v: QVal)
    ensures SortArgument(qs + [("limit", v)]) == SortArgument(qs)
    ensures FieldsArgument(qs + [("limit", v)]) == FieldsArgument(qs)
  {
    GetAppendOther(qs, ("limit", v), "sort");
    GetAppendOther(qs, ("limit", v), "fields");
  }

  // ---------------------------------------------------------------------------
  // the builder
  // ---------------------------------------------------------------------------

  /**
   * The builder. `query` is the query built so far; `queryString` is never
   * reassigned (a `const`), and `filter()` works on a copy of it. Each stage
   * appends its operations to `query` and returns the builder itself; `sort()`
   * and `field()` throw (`None`) on a parameter that has no `split`.
   */
  class APIFeatures {
    var query: seq<QueryOp>
    const queryString: QueryString

    constructor (query: seq<QueryOp>, queryString: QueryString)
      ensures this.query == query && this.queryString == queryString
    {
      this.query := query;
      this.queryString := queryString;
    }

    method Filter() returns (self: APIFeatures)
      modifies this`query
      ensures self == this
      ensures query == old(query) + [Find(Json(FilterText(queryString)))]
    {
      var queryObj := StripReserved(queryString);
      var queryStr := Stringify(Obj(queryObj));
      queryStr := RewriteOps(queryStr);
      query := query + [Find(Json(queryStr))];
      self := this;
    }

    method Search() returns (self: APIFeatures)
      modifies this`query
      ensures self == this
      ensures query == old(query) + SearchOps(queryString)
    {
      var search := Get(queryString, "search");
      if search.Some? && TruthyValue(search.value) {
        var searchTerm := search.value;
        query := query + [Find(NamePattern("^" + ToJsString(searchTerm), "i"))];
      }
      self := this;
    }

    method Sort() returns (self: Option<APIFeatures>)
      modifies this`query
      ensures SortArgument(queryString).None? ==> self == None && query == old(query)
      ensures SortArgument(queryString).Some? ==>
        self == Some(this) && query == old(query) + [SortBy(SortArgument(queryString).value)]
    {
      var sort := Get(queryString, "sort");
      if sort.Some? && TruthyValue(sort.value) {
        if !sort.value.Str? {
          return None;
        }
        var sortQuery := Join(Split(sort.value.s, ','), ' ');
        query := query + [SortBy(sortQuery)];
      } else {
        query := query + [SortBy("-createdAt")];
      }
      self := Some(this);
    }

    method Field() returns (self: Option<APIFeatures>)
      modifies this`query
      ensures FieldsArgument(queryString).None? ==> self == None && query == old(query)
      ensures FieldsArgument(queryString).Some? ==>
        self == Some(this) && query == old(query) + [Select(FieldsArgument(queryString).value)]
    {
      var fields := Get(queryString, "fields");
      if fields.Some? && TruthyValue(fields.value) {
        if !fields.value.Str? {
          return None;
        }
        var fieldsQuery := Join(Split(fields.value.s, ','), ' ');
        query := query + [Select(fieldsQuery)];
      } else {
        query := query + [Select("-__v")];
      }
      self := Some(this);
    }

    method Pagination() returns (self: APIFeatures)
      modifies this`query
      ensures self == this
      ensures query == old(query) + PaginationOps(queryString)
    {
      var page := PageNumber(queryString);
      var limit := 12;
      var skip := (page - 1) * limit;
      query := query + [Skip(skip), Limit(limit)];
      self := this;
    }
  }
}
