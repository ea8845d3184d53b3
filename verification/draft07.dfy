/** The few JSON Schema draft-07 validation keywords that the query schema
    uses and whose meaning is not a one-line test: `oneOf` (section 6.7.3 of
    draft-handrews-json-schema-validation-01), `const`/`enum` over string
    tokens (sections 6.1.2 and 6.1.3) and the two anchored patterns
    (section 6.3.3, ECMAScript regular expressions). */
module Draft07 {
  import opened Json

  /** Number of schema branches that the instance satisfies. */
  function CountTrue(bs: seq<bool>): (n: nat)
    ensures n <= |bs|
    ensures n == 0 <==> true !in bs
  {
    if bs == [] then 0 else (if bs[0] then 1 else 0) + CountTrue(bs[1..])
  }

  /** `oneOf`: valid when the instance is valid against exactly one branch. */
  predicate OneOf(bs: seq<bool>) {
    CountTrue(bs) == 1
  }

  /** No two distinct branches are satisfied together. */
  predicate AtMostOne(bs: seq<bool>) {
    forall i, j | 0 <= i < |bs| && 0 <= j < |bs| && bs[i] && bs[j] :: i == j
  }

  /** Exactly one branch matches iff some branch matches and no two do. */
  lemma {:induction false} OneOfIff(bs: seq<bool>)
    ensures OneOf(bs) <==> (true in bs && AtMostOne(bs))
  {
    if bs != [] {
      var tail := bs[1..];
      OneOfIff(tail);
      if bs[0] {
        if true in tail {
          var k :| 0 <= k < |tail| && tail[k];
          assert bs[0] && bs[k + 1];
        } else {
          assert forall i | 0 <= i < |bs| && bs[i] :: i == 0;
        }
      } else {
        assert true in bs <==> true in tail by {
          if true in bs {
            var k :| 0 <= k < |bs| && bs[k];
            assert tail[k - 1];
          }
          if true in tail {
            var k :| 0 <= k < |tail| && tail[k];
            assert bs[k + 1];
          }
        }
        assert AtMostOne(bs) <==> AtMostOne(tail) by {
          if AtMostOne(tail) {
            forall i, j | 0 <= i < |bs| && 0 <= j < |bs| && bs[i] && bs[j] ensures i == j {
              assert tail[i - 1] && tail[j - 1];
            }
          }
          if AtMostOne(bs) {
            forall i, j | 0 <= i < |tail| && 0 <= j < |tail| && tail[i] && tail[j] ensures i == j {
              assert bs[i + 1] && bs[j + 1];
            }
          }
        }
      }
    }
  }

  /** When the branches are pairwise disjoint, `oneOf` and `anyOf` agree. */
  lemma OneOfOfDisjoint(bs: seq<bool>)
    requires AtMostOne(bs)
    ensures OneOf(bs) <==> true in bs
  {
    OneOfIff(bs);
  }

  /** No token occurs twice. */
  predicate Distinct(tokens: seq<string>) {
    forall i, j | 0 <= i < |tokens| && 0 <= j < |tokens| && tokens[i] == tokens[j] :: i == j
  }

  /** One `{ const: t }` branch per token, evaluated on `v`. */
  function ConstBranches(v: Json, tokens: seq<string>): (bs: seq<bool>) {
    seq(|tokens|, i requires 0 <= i < |tokens| => v == JString(tokens[i]))
  }

  /** A list of `const` branches is matched by exactly the strings it lists. */
  lemma ConstBranchesHit(v: Json, tokens: seq<string>)
    ensures true in ConstBranches(v, tokens) <==> v.JString? && v.s in tokens
  {
    var bs := ConstBranches(v, tokens);
    if v.JString? && v.s in tokens {
      var i :| 0 <= i < |tokens| && tokens[i] == v.s;
      assert bs[i];
    }
  }

  /** Distinct `const` branches never overlap. */
  lemma ConstBranchesDisjoint(v: Json, tokens: seq<string>)
    requires Distinct(tokens)
    ensures AtMostOne(ConstBranches(v, tokens))
  {
  }

  /** `\d` in an ECMAScript pattern: ASCII 0-9 only. */
  predicate IsAsciiDigit(c: char) {
    '0' <= c <= '9'
  }

  /** The unanchored-at-the-end pattern `^p`: `s` begins with `p`. */
  predicate HasPrefix(s: string, p: string) {
    |p| <= |s| && s[..|p|] == p
  }
}
