/**
  The semantic cache of internal/cache/semantic.go: prompt building, the tokeniser, the hashed
  bag-of-words embedding and the cosine threshold, in exact arithmetic.

  The Unicode tables of the tokeniser and the square root are parameters: every result holds for
  any table in which a space separates words and for any exact square root.
 */
module Semantic {
  import opened Models
  import opened Vectors

  const BUCKETS := 128
  const UINT32 := 0x1_0000_0000
  const THRESHOLD := 0.92

  /** unicode.ToLower, and unicode.IsLetter or unicode.IsNumber. */
  datatype Tables = Tables(lower: char -> char, word: char -> bool)

  predicate SpaceSeparates(tab: Tables) { !tab.word(tab.lower(' ')) }

  ghost predicate IsSquareRoot(sqrt: real -> real) {
    forall x: real :: x >= 0.0 ==> sqrt(x) >= 0.0 && sqrt(x) * sqrt(x) == x
  }

  // ---------------------------------------------------------------- tokens

  function ToLower(tab: Tables, s: string): string {
    seq(|s|, i requires 0 <= i < |s| => tab.lower(s[i]))
  }

  function Flush(word: string): seq<string> { if word == "" then [] else [word] }

  /** The maximal runs of word characters in `current + s`, `current` being the run under way. */
  function FieldsFunc(word: char -> bool, s: string, current: string): seq<string> {
    if s == "" then Flush(current)
    else if word(s[0]) then FieldsFunc(word, s[1..], current + [s[0]])
    else Flush(current) + FieldsFunc(word, s[1..], "")
  }

  function Tokens(tab: Tables, text: string): seq<string> {
    FieldsFunc(tab.word, ToLower(tab, text), "")
  }

  predicate AllIn(word: char -> bool, s: string) { forall c | c in s :: word(c) }

  predicate NoneIn(word: char -> bool, s: string) { forall c | c in s :: !word(c) }

  /** The text in which the tokens stand between these gaps: gap, token, gap, token, ..., gap. */
  function Weave(gaps: seq<string>, tokens: seq<string>): string
    requires |gaps| == |tokens| + 1
  {
    if tokens == [] then gaps[0] else gaps[0] + tokens[0] + Weave(gaps[1..], tokens[1..])
  }

  /** Tokens are nonempty and all word characters, gaps none, and two tokens have a separator between them. */
  predicate Fields(word: char -> bool, gaps: seq<string>, tokens: seq<string>) {
    && |gaps| == |tokens| + 1
    && (forall i :: 0 <= i < |tokens| ==> tokens[i] != "" && AllIn(word, tokens[i]))
    && (forall i :: 0 <= i < |gaps| ==> NoneIn(word, gaps[i]))
    && (forall i :: 0 < i < |tokens| ==> gaps[i] != "")
  }

  lemma WeaveLonger(gap: string, gaps: seq<string>, tokens: seq<string>)
    requires |gaps| == |tokens| + 1
    ensures Weave([gap + gaps[0]] + gaps[1..], tokens) == gap + Weave(gaps, tokens)
  {
    if tokens != [] {
      assert ([gap + gaps[0]] + gaps[1..])[1..] == gaps[1..];
    }
  }

  lemma WeaveToken(token: string, gaps: seq<string>, tokens: seq<string>)
    requires |gaps| == |tokens| + 1
    ensures Weave([""] + gaps, [token] + tokens) == token + Weave(gaps, tokens)
  {
    assert ([""] + gaps)[1..] == gaps;
    assert ([token] + tokens)[1..] == tokens;
    assert "" + token == token;
  }

  /** Gaps that weave the tokens into the text. */
  predicate Weaves(word: char -> bool, gaps: seq<string>, tokens: seq<string>, text: string) {
    Fields(word, gaps, tokens) && Weave(gaps, tokens) == text
  }

  lemma SeparatorJoinsGap(word: char -> bool, sep: char, gaps: seq<string>, tokens: seq<string>, text: string)
    requires Weaves(word, gaps, tokens, text) && !word(sep)
    ensures Weaves(word, [[sep] + gaps[0]] + gaps[1..], tokens, [sep] + text)
  {
    WeaveLonger([sep], gaps, tokens);
  }

  lemma TokenJoins(word: char -> bool, token: string, gaps: seq<string>, tokens: seq<string>, text: string)
    requires Weaves(word, gaps, tokens, text) && token != "" && AllIn(word, token) && (tokens != [] ==> gaps[0] != "")
    ensures Weaves(word, [""] + gaps, [token] + tokens, token + text)
  {
    WeaveToken(token, gaps, tokens);
  }

  /** The gaps between the tokens that FieldsFunc finds. */
  lemma {:induction false} FieldsFound(word: char -> bool, s: string, current: string) returns (gaps: seq<string>)
    requires AllIn(word, current)
    ensures Weaves(word, gaps, FieldsFunc(word, s, current), current + s)
    ensures current != "" ==> gaps[0] == ""
  {
    if s == "" {
      gaps := [""];
      assert Weaves(word, gaps, [], "") && current + s == current;
      if current != "" {
        TokenJoins(word, current, gaps, [], "");
        gaps := [""] + gaps;
        assert current + "" == current && [current] + [] == [current];
      }
    } else if word(s[0]) {
      gaps := FieldsFound(word, s[1..], current + [s[0]]);
      assert current + [s[0]] + s[1..] == current + s;
    } else {
      var rest := FieldsFunc(word, s[1..], "");
      gaps := FieldsFound(word, s[1..], "");
      SeparatorJoinsGap(word, s[0], gaps, rest, "" + s[1..]);
      gaps := [[s[0]] + gaps[0]] + gaps[1..];
      assert [s[0]] + ("" + s[1..]) == s;
      if current == "" {
        assert [] + rest == rest && current + s == s;
      } else {
        TokenJoins(word, current, gaps, rest, s);
        gaps := [""] + gaps;
      }
    }
  }

  lemma {:induction false} GapSkipped(word: char -> bool, gap: string, s: string)
    requires NoneIn(word, gap)
    ensures FieldsFunc(word, gap + s, "") == FieldsFunc(word, s, "")
  {
    if gap == "" {
      assert gap + s == s;
    } else {
      assert gap[0] in gap && (gap + s)[1..] == gap[1..] + s;
      GapSkipped(word, gap[1..], s);
    }
  }

  lemma {:induction false} TokenTaken(word: char -> bool, token: string, s: string, current: string)
    requires AllIn(word, token) && current + token != "" && (s == "" || !word(s[0]))
    ensures FieldsFunc(word, token + s, current) == [current + token] + FieldsFunc(word, s, "")
    decreases |token|
  {
    if token == "" {
      assert token + s == s && current + token == current;
    } else {
      assert token[0] in token && (token + s)[1..] == token[1..] + s;
      assert current + [token[0]] + token[1..] == current + token;
      TokenTaken(word, token[1..], s, current + [token[0]]);
    }
  }

  lemma {:induction false} WovenFields(word: char -> bool, gaps: seq<string>, tokens: seq<string>)
    requires Fields(word, gaps, tokens)
    ensures FieldsFunc(word, Weave(gaps, tokens), "") == tokens
  {
    if tokens == [] {
      GapSkipped(word, gaps[0], "");
      assert gaps[0] + "" == gaps[0];
    } else {
      var rest := Weave(gaps[1..], tokens[1..]);
      assert Weave(gaps, tokens) == gaps[0] + (tokens[0] + rest);
      GapSkipped(word, gaps[0], tokens[0] + rest);
      assert Fields(word, gaps[1..], tokens[1..]);
      AfterToken(word, gaps[1..], tokens[1..]);
      TokenTaken(word, tokens[0], rest, "");
      assert "" + tokens[0] == tokens[0];
      WovenFields(word, gaps[1..], tokens[1..]);
    }
  }

  /** What follows a token does not start with a word character. */
  lemma AfterToken(word: char -> bool, gaps: seq<string>, tokens: seq<string>)
    requires Fields(word, gaps, tokens) && (tokens != [] ==> gaps[0] != "")
    ensures var rest := Weave(gaps, tokens); rest == "" || !word(rest[0])
  {
    if gaps[0] != "" {
      assert gaps[0][0] in gaps[0];
    }
  }

  /** A text in lower case. */
  predicate Lowered(tab: Tables, text: string, low: string) {
    |low| == |text| && forall i :: 0 <= i < |text| ==> low[i] == tab.lower(text[i])
  }

  /**
    The tokens of a text are the one list of nonempty strings of word characters that make up the lowered text
    together with gaps of separators, none of them empty between two tokens.
   */
  lemma TokensExactly(tab: Tables, text: string, tokens: seq<string>)
    ensures tokens == Tokens(tab, text) <==>
            exists gaps :: Fields(tab.word, gaps, tokens) && Lowered(tab, text, Weave(gaps, tokens))
  {
    var low := ToLower(tab, text);
    if tokens == Tokens(tab, text) {
      var gaps := FieldsFound(tab.word, low, "");
      assert "" + low == low;
      assert Lowered(tab, text, Weave(gaps, tokens));
    }
    forall gaps | Fields(tab.word, gaps, tokens) && Lowered(tab, text, Weave(gaps, tokens))
      ensures tokens == Tokens(tab, text)
    {
      assert Weave(gaps, tokens) == low;
      WovenFields(tab.word, gaps, tokens);
    }
  }

  /** The word characters of a text, in order. */
  function WordsOf(word: char -> bool, s: string): string {
    if s == "" then "" else (if word(s[0]) then [s[0]] else "") + WordsOf(word, s[1..])
  }

  function Concat(tokens: seq<string>): string {
    if tokens == [] then "" else tokens[0] + Concat(tokens[1..])
  }

  /** Nothing of a word is dropped, added or moved. */
  lemma {:induction false} TokensKeepEveryWord(word: char -> bool, s: string, current: string)
    ensures Concat(FieldsFunc(word, s, current)) == current + WordsOf(word, s)
  {
    if s != "" {
      if word(s[0]) {
        TokensKeepEveryWord(word, s[1..], current + [s[0]]);
      } else {
        TokensKeepEveryWord(word, s[1..], "");
        ConcatHead(current, FieldsFunc(word, s[1..], ""));
      }
    } else {
      ConcatHead(current, []);
    }
  }

  lemma ConcatHead(current: string, rest: seq<string>)
    ensures Concat(Flush(current) + rest) == current + Concat(rest)
  {
    if current != "" {
      assert ([current] + rest)[1..] == rest;
    } else {
      assert Flush(current) + rest == rest;
    }
  }

  function Contents(ms: seq<Message>): seq<string> {
    seq(|ms|, i requires 0 <= i < |ms| => ms[i].content)
  }

  /** Every content followed by a space. */
  function Prompt(contents: seq<string>): string {
    if contents == [] then "" else contents[0] + " " + Prompt(contents[1..])
  }

  function AllTokens(tab: Tables, contents: seq<string>): seq<string> {
    if contents == [] then [] else Tokens(tab, contents[0]) + AllTokens(tab, contents[1..])
  }

  lemma {:induction false} SeparatorSplits(word: char -> bool, a: string, sep: char, b: string, current: string)
    requires !word(sep)
    ensures FieldsFunc(word, a + [sep] + b, current) == FieldsFunc(word, a, current) + FieldsFunc(word, b, "")
    decreases |a|
  {
    var s := a + [sep] + b;
    if a == "" {
      assert s[1..] == b;
    } else {
      assert s[1..] == a[1..] + [sep] + b;
      if word(a[0]) {
        SeparatorSplits(word, a[1..], sep, b, current + [a[0]]);
      } else {
        SeparatorSplits(word, a[1..], sep, b, "");
      }
    }
  }

  /** The space-joined prompt has exactly the tokens of its messages, in order. */
  lemma {:induction false} PromptTokens(tab: Tables, contents: seq<string>)
    requires SpaceSeparates(tab)
    ensures Tokens(tab, Prompt(contents)) == AllTokens(tab, contents)
  {
    if contents == [] {
      assert ToLower(tab, "") == "";
    } else {
      var a, b := contents[0], Prompt(contents[1..]);
      PromptTokens(tab, contents[1..]);
      assert ToLower(tab, a + " " + b) == ToLower(tab, a) + [tab.lower(' ')] + ToLower(tab, b);
      SeparatorSplits(tab.word, ToLower(tab, a), tab.lower(' '), ToLower(tab, b), "");
    }
  }

  /** The tokens of the contents of some messages, one after the other. */
  function MessageTokens(tab: Tables, ms: seq<Message>): seq<string> {
    if ms == [] then [] else Tokens(tab, ms[0].content) + MessageTokens(tab, ms[1..])
  }

  /** Of a request's messages nothing but the contents is embedded. */
  lemma {:induction false} PromptOfMessages(tab: Tables, ms: seq<Message>)
    requires SpaceSeparates(tab)
    ensures Tokens(tab, Prompt(Contents(ms))) == MessageTokens(tab, ms)
  {
    if ms == [] {
      PromptTokens(tab, []);
    } else {
      PromptOfMessages(tab, ms[1..]);
      PromptTokens(tab, Contents(ms));
      PromptTokens(tab, Contents(ms[1..]));
      assert Contents(ms)[1..] == Contents(ms[1..]);
    }
  }

  // ---------------------------------------------------------------- buckets

  /** The wrapping uint32 hash of a word. */
  function Hash(word: string): nat
    ensures Hash(word) < UINT32
  {
    if word == "" then 0
    else (Hash(word[..|word| - 1]) * 31 + word[|word| - 1] as int) % UINT32
  }

  function Bucket(word: string): nat
    ensures Bucket(word) < BUCKETS
  {
    Hash(word) % BUCKETS
  }

  /** The same polynomial without any wrap-around. */
  function Polynomial(word: string): nat {
    if word == "" then 0 else Polynomial(word[..|word| - 1]) * 31 + word[|word| - 1] as int
  }

  function Power31(n: nat): nat { if n == 0 then 1 else 31 * Power31(n - 1) }

  /** Horner's rule: one character is its code, and a word in front counts 31 times for every character behind it. */
  lemma {:induction false} PolynomialOfWord(a: string, b: string)
    ensures forall c :: Polynomial([c]) == c as int
    ensures Polynomial(a + b) == Polynomial(a) * Power31(|b|) + Polynomial(b)
  {
    forall c ensures Polynomial([c]) == c as int {
      assert Polynomial([c]) == Polynomial([c][..0]) * 31 + c as int;
    }
    if b == "" {
      assert a + b == a;
    } else {
      var n := |b| - 1;
      assert (a + b)[..|a + b| - 1] == a + b[..n];
      PolynomialOfWord(a, b[..n]);
      assert Polynomial(a) * (31 * Power31(n)) == Polynomial(a) * Power31(n) * 31;
    }
  }

  lemma WrapKeepsRemainder(x: nat)
    ensures x % UINT32 % BUCKETS == x % BUCKETS
  {
  }

  lemma SameRemainder(a: nat, b: nat, c: nat)
    requires a % BUCKETS == b % BUCKETS
    ensures (a * 31 + c) % BUCKETS == (b * 31 + c) % BUCKETS
  {
    var d := a / BUCKETS - b / BUCKETS;
    assert a * 31 + c == b * 31 + c + BUCKETS * (31 * d);
  }

  /** The 32-bit wrap-around never changes the bucket of a word. */
  lemma {:induction false} WrapIsUnobservable(word: string)
    ensures Bucket(word) == Polynomial(word) % 128
  {
    if word != "" {
      WrapIsUnobservable(word[..|word| - 1]);
      var h, p, c := Hash(word[..|word| - 1]), Polynomial(word[..|word| - 1]), word[|word| - 1] as int;
      WrapKeepsRemainder(h * 31 + c);
      SameRemainder(h, p, c);
    }
  }

  function Hits(word: string, bucket: nat): nat { if Bucket(word) == bucket then 1 else 0 }

  /** How many of the words fall into a bucket. */
  function Count(words: seq<string>, bucket: nat): nat {
    if words == [] then 0 else Count(words[..|words| - 1], bucket) + Hits(words[|words| - 1], bucket)
  }

  /** The positions of the words whose polynomial leaves this remainder. */
  function WordsIn(words: seq<string>, bucket: nat): set<nat> {
    set i: nat | i < |words| && Polynomial(words[i]) % 128 == bucket
  }

  /** Every word counts once, in the bucket of its polynomial. */
  lemma {:induction false} CountIsNumber(words: seq<string>, bucket: nat)
    ensures Count(words, bucket) == |WordsIn(words, bucket)|
  {
    if words != [] {
      var n := |words| - 1;
      CountIsNumber(words[..n], bucket);
      WrapIsUnobservable(words[n]);
      var before := WordsIn(words[..n], bucket);
      assert WordsIn(words, bucket) == if Polynomial(words[n]) % 128 == bucket then before + {n} else before;
    }
  }

  function Counts(words: seq<string>): (v: Vector)
    ensures |v| == BUCKETS && forall i :: 0 <= i < BUCKETS ==> v[i] == Count(words, i) as real
  {
    seq(BUCKETS, i requires 0 <= i < BUCKETS => Count(words, i) as real)
  }

  lemma {:induction false} CountWithout(words: seq<string>, j: nat, bucket: nat)
    requires j < |words|
    ensures Count(words, bucket) == Count(words[..j] + words[j + 1..], bucket) + Hits(words[j], bucket)
  {
    var n := |words| - 1;
    if j == n {
      assert words[..j] + words[j + 1..] == words[..n];
    } else {
      var rest := words[..j] + words[j + 1..];
      CountWithout(words[..n], j, bucket);
      assert rest[..|rest| - 1] == words[..n][..j] + words[..n][j + 1..];
    }
  }

  lemma BagWithout<T>(s: seq<T>, j: nat)
    requires j < |s|
    ensures multiset(s[..j] + s[j + 1..]) == multiset(s) - multiset{s[j]}
  {
    assert s == s[..j] + [s[j]] + s[j + 1..];
  }

  lemma {:induction false} CountsDependOnBag(a: seq<string>, b: seq<string>, bucket: nat)
    requires multiset(a) == multiset(b)
    ensures Count(a, bucket) == Count(b, bucket)
  {
    if a == [] {
      assert |b| == |multiset(b)|;
    } else {
      var n := |a| - 1;
      assert a[n] in multiset(b);
      var j :| 0 <= j < |b| && b[j] == a[n];
      var rest := b[..j] + b[j + 1..];
      BagWithout(a, n);
      BagWithout(b, j);
      assert a[..n] + a[n + 1..] == a[..n];
      CountsDependOnBag(a[..n], rest, bucket);
      CountWithout(b, j, bucket);
    }
  }

  /** Bucket counts add up over concatenated token lists, hence over the messages of a prompt. */
  lemma {:induction false} CountsAdd(a: seq<string>, b: seq<string>, bucket: nat)
    ensures Count(a + b, bucket) == Count(a, bucket) + Count(b, bucket)
  {
    if b == [] {
      assert a + b == a;
    } else {
      assert (a + b)[..|a + b| - 1] == a + b[..|b| - 1];
      CountsAdd(a, b[..|b| - 1], bucket);
    }
  }

  lemma {:induction false} HitInItsBucket(words: seq<string>, j: nat)
    requires j < |words|
    ensures Count(words, Bucket(words[j])) > 0
  {
    CountWithout(words, j, Bucket(words[j]));
  }

  lemma CountsFacts(words: seq<string>)
    ensures NonNegative(Counts(words))
    ensures words != [] <==> !Zero(Counts(words))
    ensures words != [] ==> Dot(Counts(words), Counts(words)) > 0.0
  {
    var v := Counts(words);
    if words != [] {
      HitInItsBucket(words, 0);
      assert v[Bucket(words[0])] != 0.0;
    }
    SquareSum(v);
  }

  // ---------------------------------------------------------------- the embedding

  /** The count vector divided by its L2 norm, or the zero vector of a prompt without tokens. */
  function Embedding(tab: Tables, sqrt: real -> real, text: string): (v: Vector)
    ensures |v| == BUCKETS
  {
    var c := Counts(Tokens(tab, text));
    var norm := sqrt(Dot(c, c));
    if norm == 0.0 then c else Scale(c, 1.0 / norm)
  }

  predicate IsRoot(r: real, x: real) { r > 0.0 && r * r == x }

  lemma PositiveRoot(sqrt: real -> real, x: real)
    requires IsSquareRoot(sqrt) && x > 0.0
    ensures IsRoot(sqrt(x), x)
  {
  }

  lemma RootOfZero(sqrt: real -> real)
    requires IsSquareRoot(sqrt)
    ensures sqrt(0.0) == 0.0
  {
    SquareNonNegative(sqrt(0.0));
  }

  method BucketOf(word: string) returns (bucket: nat)
    ensures bucket == Polynomial(word) % 128 && bucket == Bucket(word)
  {
    var hash := 0;
    for c := 0 to |word|
      invariant hash == Hash(word[..c])
    {
      assert word[..c + 1][..c] == word[..c];
      hash := (hash * 31 + word[c] as int) % UINT32;
    }
    assert word[..|word|] == word;
    WrapIsUnobservable(word);
    bucket := hash % BUCKETS;
  }

  method CountWords(vec: array<real>, words: seq<string>)
    requires vec.Length == BUCKETS && Zero(vec[..])
    modifies vec
    ensures vec[..] == Counts(words)
  {
    for k := 0 to |words|
      invariant forall i :: 0 <= i < BUCKETS ==> vec[i] == Count(words[..k], i) as real
    {
      assert words[..k + 1][..k] == words[..k];
      var bucket := BucketOf(words[k]);
      vec[bucket] := vec[bucket] + 1.0;
    }
    assert words[..|words|] == words;
  }

  method SumOfSquares(vec: array<real>) returns (sum: real)
    ensures sum == Dot(vec[..], vec[..])
  {
    sum := 0.0;
    for i := 0 to vec.Length
      invariant sum == Dot(vec[..i], vec[..i])
    {
      assert vec[..i + 1][..i] == vec[..i];
      sum := sum + vec[i] * vec[i];
    }
    assert vec[..vec.Length] == vec[..];
  }

  method DivideBy(vec: array<real>, norm: real)
    requires norm != 0.0
    modifies vec
    ensures vec[..] == Scale(old(vec[..]), 1.0 / norm)
  {
    ghost var scaled := Scale(vec[..], 1.0 / norm);
    for i := 0 to vec.Length
      invariant forall j :: i <= j < vec.Length ==> vec[j] == old(vec[..])[j]
      invariant forall j :: 0 <= j < i ==> vec[j] == scaled[j]
    {
      assert vec[i] / norm == vec[i] * (1.0 / norm) == scaled[i];
      vec[i] := vec[i] / norm;
    }
    assert vec[..] == scaled;
  }

  method Embed(tab: Tables, sqrt: real -> real, text: string) returns (result: Vector)
    requires IsSquareRoot(sqrt)
    ensures result == Embedding(tab, sqrt, text)
  {
    var vec := new real[BUCKETS](_ => 0.0);
    var words := Tokens(tab, text);
    CountsFacts(words);
    RootOfZero(sqrt);
    if |words| == 0 {
      assert vec[..] == Counts(words);
      return vec[..];
    }
    CountWords(vec, words);
    var sumSquares := SumOfSquares(vec);
    if sumSquares > 0.0 {
      var norm := sqrt(sumSquares);
      PositiveRoot(sqrt, sumSquares);
      DivideBy(vec, norm);
    }
    return vec[..];
  }

  // ---------------------------------------------------------------- similarity

  /** What `1 - (a <=> b)` evaluates to for vectors that are not zero. */
  function Similarity(sqrt: real -> real, u: Vector, v: Vector): real
    requires |u| == |v| && sqrt(Dot(u, u)) * sqrt(Dot(v, v)) != 0.0
  {
    Dot(u, v) / (sqrt(Dot(u, u)) * sqrt(Dot(v, v)))
  }

  lemma ReciprocalSquare(norm: real, square: real)
    requires IsRoot(norm, square)
    ensures square * ((1.0 / norm) * (1.0 / norm)) == 1.0
  {
  }

  /** A prompt with at least one token is embedded as a unit vector. */
  lemma UnitNorm(tab: Tables, sqrt: real -> real, text: string)
    requires IsSquareRoot(sqrt) && Tokens(tab, text) != []
    ensures Dot(Embedding(tab, sqrt, text), Embedding(tab, sqrt, text)) == 1.0
  {
    var c := Counts(Tokens(tab, text));
    CountsFacts(Tokens(tab, text));
    var norm := sqrt(Dot(c, c));
    PositiveRoot(sqrt, Dot(c, c));
    DotScaleBoth(c, c, 1.0 / norm, 1.0 / norm);
    ReciprocalSquare(norm, Dot(c, c));
  }

  lemma PositiveProduct(x: real, y: real)
    requires x > 0.0 && y > 0.0
    ensures x * y > 0.0
  {
  }

  lemma SquareMonotone(x: real, y: real)
    requires 0.0 <= x < y
    ensures x * x < y * y
  {
    PositiveProduct(y - x, y + x);
    assert (y - x) * (y + x) == y * y - x * x;
  }

  lemma SquaresDetermine(x: real, y: real)
    requires x >= 0.0 && y >= 0.0 && x * x == y * y
    ensures x == y
  {
    if x < y {
      SquareMonotone(x, y);
    }
    if y < x {
      SquareMonotone(y, x);
    }
  }

  lemma QuotientOrder(c: real, p: real, s: real, t: real)
    requires p > 0.0 && s * p == c
    ensures s > t <==> c > t * p
  {
  }

  /** The quotient s = c / p against a bound t, in terms of squares only. */
  lemma QuotientSquares(c: real, p: real, s: real, t: real)
    requires p > 0.0 && s * p == c && c >= 0.0 && t >= 0.0
    ensures s > t <==> c * c > t * t * (p * p)
  {
    QuotientOrder(c, p, s, t);
    assert (t * p) * (t * p) == t * t * (p * p);
    assert t * p >= 0.0;
    if c > t * p {
      SquareMonotone(t * p, c);
    } else if c < t * p {
      SquareMonotone(c, t * p);
    }
  }

  predicate IsInverse(r: real, x: real) { x * r == 1.0 }

  /** s is the quotient of c by the product of the roots x and y of a and b; rx and ry are 1/x and 1/y. */
  predicate IsCosine(a: real, b: real, c: real, x: real, y: real, rx: real, ry: real, s: real) {
    IsRoot(x, a) && IsRoot(y, b) && IsInverse(rx, x) && IsInverse(ry, y) && IsProduct(s, c, rx * ry)
  }

  /** The threshold test on a = u.u, b = v.v and c = u.v, free of any square root: 0.92^2 = 0.8464. */
  predicate PassesSquared(a: real, b: real, c: real) { 10000.0 * (c * c) > 8464.0 * (a * b) }

  lemma ClearRoots(a: real, b: real, c: real, x: real, y: real, rx: real, ry: real, s: real)
    requires IsCosine(a, b, c, x, y, rx, ry, s)
    ensures x * y > 0.0 && (x * y) * (x * y) == a * b && s * (x * y) == c
  {
  }

  lemma QuotientRange(a: real, b: real, c: real, p: real, s: real)
    requires p > 0.0 && p * p == a * b && s * p == c && c >= 0.0 && WithinBound(a, b, c)
    ensures 0.0 <= s <= 1.0
    ensures s == 1.0 <==> Tight(a, b, c)
  {
    QuotientSquares(c, p, s, 1.0);
    PositiveFactor(p, s);
    if c * c == p * p {
      SquaresDetermine(c, p);
      CancelFactor(p, s, 1.0);
    }
  }

  lemma CosineFacts(a: real, b: real, c: real, x: real, y: real, rx: real, ry: real, s: real)
    requires IsCosine(a, b, c, x, y, rx, ry, s) && c >= 0.0 && WithinBound(a, b, c)
    ensures 0.0 <= s <= 1.0
    ensures s == 1.0 <==> Tight(a, b, c)
    ensures s > THRESHOLD <==> PassesSquared(a, b, c)
  {
    ClearRoots(a, b, c, x, y, rx, ry, s);
    QuotientRange(a, b, c, x * y, s);
    QuotientSquares(c, x * y, s, THRESHOLD);
  }

  lemma UnitSimilarity(sqrt: real -> real, u: Vector, v: Vector)
    requires IsSquareRoot(sqrt) && |u| == |v| && Dot(u, u) == 1.0 && Dot(v, v) == 1.0
    ensures sqrt(Dot(u, u)) * sqrt(Dot(v, v)) != 0.0 && Similarity(sqrt, u, v) == Dot(u, v)
  {
  }

  /** The similarity of two prompts that have at least one token each. */
  function PromptSimilarity(tab: Tables, sqrt: real -> real, p: string, q: string): real
    requires IsSquareRoot(sqrt) && Tokens(tab, p) != [] && Tokens(tab, q) != []
  {
    UnitNorm(tab, sqrt, p);
    UnitNorm(tab, sqrt, q);
    UnitSimilarity(sqrt, Embedding(tab, sqrt, p), Embedding(tab, sqrt, q));
    Similarity(sqrt, Embedding(tab, sqrt, p), Embedding(tab, sqrt, q))
  }

  lemma EmbeddingIsScaled(tab: Tables, sqrt: real -> real, p: string)
    requires IsSquareRoot(sqrt) && Tokens(tab, p) != []
    ensures var u := Counts(Tokens(tab, p));
            IsRoot(sqrt(Dot(u, u)), Dot(u, u)) && Embedding(tab, sqrt, p) == Scale(u, 1.0 / sqrt(Dot(u, u)))
  {
    var u := Counts(Tokens(tab, p));
    CountsFacts(Tokens(tab, p));
    PositiveRoot(sqrt, Dot(u, u));
  }

  lemma SimilarityIsDot(tab: Tables, sqrt: real -> real, p: string, q: string)
    requires IsSquareRoot(sqrt) && Tokens(tab, p) != [] && Tokens(tab, q) != []
    ensures PromptSimilarity(tab, sqrt, p, q) == Dot(Embedding(tab, sqrt, p), Embedding(tab, sqrt, q))
  {
    UnitNorm(tab, sqrt, p);
    UnitNorm(tab, sqrt, q);
    UnitSimilarity(sqrt, Embedding(tab, sqrt, p), Embedding(tab, sqrt, q));
  }

  lemma CosineOfScales(u: Vector, v: Vector, x: real, y: real, rx: real, ry: real)
    requires |u| == |v| && IsRoot(x, Dot(u, u)) && IsRoot(y, Dot(v, v)) && IsInverse(rx, x) && IsInverse(ry, y)
    ensures IsCosine(Dot(u, u), Dot(v, v), Dot(u, v), x, y, rx, ry, Dot(Scale(u, rx), Scale(v, ry)))
  {
    DotScaleBoth(u, v, rx, ry);
  }

  lemma InverseOfRoot(x: real, a: real)
    requires IsRoot(x, a)
    ensures x != 0.0 && IsInverse(1.0 / x, x)
  {
  }

  lemma SimilarityIsCosine(tab: Tables, sqrt: real -> real, p: string, q: string) returns (x: real, y: real)
    requires IsSquareRoot(sqrt) && Tokens(tab, p) != [] && Tokens(tab, q) != []
    ensures var u, v := Counts(Tokens(tab, p)), Counts(Tokens(tab, q));
            && x != 0.0 && y != 0.0
            && IsCosine(Dot(u, u), Dot(v, v), Dot(u, v), x, y, 1.0 / x, 1.0 / y, PromptSimilarity(tab, sqrt, p, q))
  {
    var u, v := Counts(Tokens(tab, p)), Counts(Tokens(tab, q));
    x, y := sqrt(Dot(u, u)), sqrt(Dot(v, v));
    EmbeddingIsScaled(tab, sqrt, p);
    EmbeddingIsScaled(tab, sqrt, q);
    SimilarityIsDot(tab, sqrt, p, q);
    InverseOfRoot(x, Dot(u, u));
    InverseOfRoot(y, Dot(v, v));
    CosineOfScales(u, v, x, y, 1.0 / x, 1.0 / y);
  }

  /**
    Cosine similarity lies in [0, 1], is 1 exactly for proportional bucket counts, and passes the
    threshold exactly when the counts pass a test without any square root.
   */
  lemma SimilarityExact(tab: Tables, sqrt: real -> real, p: string, q: string)
    requires IsSquareRoot(sqrt) && Tokens(tab, p) != [] && Tokens(tab, q) != []
    ensures 0.0 <= PromptSimilarity(tab, sqrt, p, q) <= 1.0
    ensures PromptSimilarity(tab, sqrt, p, q) == 1.0 <==>
            Proportional(Counts(Tokens(tab, p)), Counts(Tokens(tab, q)))
    ensures var u, v := Counts(Tokens(tab, p)), Counts(Tokens(tab, q));
            PromptSimilarity(tab, sqrt, p, q) > THRESHOLD <==> PassesSquared(Dot(u, u), Dot(v, v), Dot(u, v))
  {
    var u, v := Counts(Tokens(tab, p)), Counts(Tokens(tab, q));
    CountsFacts(Tokens(tab, p));
    CountsFacts(Tokens(tab, q));
    var x, y := SimilarityIsCosine(tab, sqrt, p, q);
    DotNonNegative(u, v);
    CauchySchwarz(u, v);
    CosineFacts(Dot(u, u), Dot(v, v), Dot(u, v), x, y, 1.0 / x, 1.0 / y, PromptSimilarity(tab, sqrt, p, q));
  }

  // ---------------------------------------------------------------- equal bags of tokens

  lemma SameBagSameEmbedding(tab: Tables, sqrt: real -> real, p: string, q: string)
    requires multiset(Tokens(tab, p)) == multiset(Tokens(tab, q))
    ensures Embedding(tab, sqrt, p) == Embedding(tab, sqrt, q)
  {
    var u, v := Counts(Tokens(tab, p)), Counts(Tokens(tab, q));
    forall i | 0 <= i < BUCKETS
      ensures u[i] == v[i]
    {
      CountsDependOnBag(Tokens(tab, p), Tokens(tab, q), i);
    }
    assert u == v;
  }

  lemma {:induction false} BagOfContents(tab: Tables, contents: seq<string>, j: nat)
    requires j < |contents|
    ensures multiset(AllTokens(tab, contents)) ==
            multiset(Tokens(tab, contents[j])) + multiset(AllTokens(tab, contents[..j] + contents[j + 1..]))
  {
    var rest := contents[..j] + contents[j + 1..];
    if j == 0 {
      assert rest == contents[1..];
    } else {
      BagOfContents(tab, contents[1..], j - 1);
      assert rest[1..] == contents[1..][..j - 1] + contents[1..][j..];
    }
  }

  lemma BagHead<T>(s: seq<T>)
    requires s != []
    ensures multiset(s[1..]) == multiset(s) - multiset{s[0]} && s[0] in multiset(s)
  {
    assert s == [s[0]] + s[1..];
  }

  lemma HeadFound<T>(a: seq<T>, b: seq<T>) returns (j: nat)
    requires a != [] && multiset(a) == multiset(b)
    ensures j < |b| && b[j] == a[0] && multiset(a[1..]) == multiset(b[..j] + b[j + 1..])
  {
    BagHead(a);
    assert a[0] in b;
    j :| 0 <= j < |b| && b[j] == a[0];
    BagWithout(b, j);
  }

  lemma {:induction false} PermutedContents(tab: Tables, a: seq<string>, b: seq<string>)
    requires multiset(a) == multiset(b)
    ensures multiset(AllTokens(tab, a)) == multiset(AllTokens(tab, b))
  {
    if a == [] {
      assert |b| == |multiset(b)|;
    } else {
      var j := HeadFound(a, b);
      PermutedContents(tab, a[1..], b[..j] + b[j + 1..]);
      BagOfContents(tab, b, j);
    }
  }

  /** Permuting the messages of a prompt, or changing their roles, leaves its embedding unchanged. */
  lemma PermutedMessages(tab: Tables, sqrt: real -> real, a: seq<Message>, b: seq<Message>)
    requires SpaceSeparates(tab) && multiset(Contents(a)) == multiset(Contents(b))
    ensures Embedding(tab, sqrt, Prompt(Contents(a))) == Embedding(tab, sqrt, Prompt(Contents(b)))
  {
    PromptTokens(tab, Contents(a));
    PromptTokens(tab, Contents(b));
    PermutedContents(tab, Contents(a), Contents(b));
    SameBagSameEmbedding(tab, sqrt, Prompt(Contents(a)), Prompt(Contents(b)));
  }

  // ---------------------------------------------------------------- the table

  datatype Row = Row(provider: string, model: string, embedding: Vector, response: GatewayResponse)

  datatype Lookup = Miss | Hit(response: GatewayResponse)

  lemma PromptUnfolds(contents: seq<string>, i: nat, text: string)
    requires i < |contents|
    ensures text + Prompt(contents[i..]) == text + contents[i] + " " + Prompt(contents[i + 1..])
  {
  }

  class SemanticCache {
    const tab: Tables
    const sqrt: real -> real
    var rows: seq<Row>

    ghost predicate Valid()
      reads this
    {
      IsSquareRoot(sqrt) && SpaceSeparates(tab) && forall r | r in rows :: |r.embedding| == BUCKETS
    }

    function EmbeddingOf(req: GatewayRequest): Vector {
      Embedding(tab, sqrt, Prompt(Contents(req.messages)))
    }

    /** The WHERE clause, for vectors that are not zero. */
    predicate Matches(row: Row, req: GatewayRequest) {
      var v := EmbeddingOf(req);
      && row.provider == req.provider && row.model == req.model
      && |row.embedding| == BUCKETS
      && sqrt(Dot(row.embedding, row.embedding)) * sqrt(Dot(v, v)) != 0.0
      && Similarity(sqrt, row.embedding, v) > THRESHOLD
    }

    constructor (tab: Tables, sqrt: real -> real)
      requires IsSquareRoot(sqrt) && SpaceSeparates(tab)
      ensures Valid() && rows == [] && this.tab == tab && this.sqrt == sqrt
    {
      this.tab, this.sqrt, rows := tab, sqrt, [];
    }

    method BuildPrompt(messages: seq<Message>) returns (text: string)
      ensures text == Prompt(Contents(messages))
    {
      text := "";
      ghost var contents := Contents(messages);
      for i := 0 to |messages|
        invariant text + Prompt(contents[i..]) == Prompt(contents)
      {
        PromptUnfolds(contents, i, text);
        text := text + messages[i].content + " ";
      }
      assert contents[|messages|..] == [];
    }

    /** `reply` is how the insert ends. */
    method Store(req: GatewayRequest, resp: GatewayResponse, reply: Reply) returns (err: bool)
      requires Valid()
      modifies this`rows
      ensures Valid() && (err <==> !reply.Replied?)
      ensures rows == old(rows) + if Executed(reply)
                                  then [Row(req.provider, req.model, EmbeddingOf(req),
                                            resp.(cached := false, latencyMs := 0))]
                                  else []
    {
      var text := BuildPrompt(req.messages);
      var vector := Embed(tab, sqrt, text);
      if Executed(reply) {
        rows := rows + [Row(req.provider, req.model, vector, resp.(cached := false, latencyMs := 0))];
      }
      return !reply.Replied?;
    }

    /**
      `candidate` is the row the approximate index proposes first, negative for a failing query; it is
      handed out exactly when it meets the WHERE clause.
     */
    method FindSimilar(req: GatewayRequest, candidate: int) returns (r: Lookup)
      requires Valid() && candidate < |rows|
      ensures r.Hit? <==>
                0 <= candidate &&
                var row, v := rows[candidate], EmbeddingOf(req);
                && row.provider == req.provider && row.model == req.model
                && sqrt(Dot(row.embedding, row.embedding)) * sqrt(Dot(v, v)) != 0.0
                && Similarity(sqrt, row.embedding, v) > 0.92
      ensures r.Hit? ==> r.response == rows[candidate].response.(cached := true)
    {
      if candidate < 0 || !Matches(rows[candidate], req) {
        return Miss;
      }
      return Hit(rows[candidate].response.(cached := true));
    }

    /**
      A stored prompt passes the threshold for every later request to the same provider and model
      with the same bag of tokens, whatever its system prompt, roles or message order.
     */
    lemma StoredPromptPasses(row: Row, stored: GatewayRequest, req: GatewayRequest)
      requires IsSquareRoot(sqrt) && SpaceSeparates(tab)
      requires row.provider == stored.provider == req.provider && row.model == stored.model == req.model
      requires row.embedding == EmbeddingOf(stored)
      requires AllTokens(tab, Contents(req.messages)) != []
      requires multiset(AllTokens(tab, Contents(stored.messages))) == multiset(AllTokens(tab, Contents(req.messages)))
      ensures Matches(row, req) && Similarity(sqrt, row.embedding, EmbeddingOf(req)) == 1.0
    {
      var p, q := Prompt(Contents(stored.messages)), Prompt(Contents(req.messages));
      PromptTokens(tab, Contents(stored.messages));
      PromptTokens(tab, Contents(req.messages));
      SameBagSameEmbedding(tab, sqrt, p, q);
      UnitNorm(tab, sqrt, q);
      UnitSimilarity(sqrt, row.embedding, EmbeddingOf(req));
    }
  }
}
