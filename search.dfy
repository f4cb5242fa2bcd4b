/** The title search of the searchable post listing: a case-insensitive
    substring match of the query against each post's title, keeping the
    matching posts in their original order. Case folding is ASCII-only. */
module Search {
  import opened Blog

  /** Lower-cases one ASCII letter and leaves every other character alone. */
  function LowerChar(c: char): (l: char)
    ensures !('A' <= l <= 'Z')
    ensures !('A' <= c <= 'Z') ==> l == c
    ensures 'A' <= c <= 'Z' ==> 'a' <= l <= 'z' && l as int - 'a' as int == c as int - 'A' as int
  {
    if 'A' <= c <= 'Z' then (c as int - 'A' as int + 'a' as int) as char else c
  }

  /** The string lower-cased character by character: no upper-case letter
      is left, and every other character stays where it was. */
  function Lower(s: string): (r: string)
    ensures |r| == |s|
    ensures forall i :: 0 <= i < |r| ==> !('A' <= r[i] <= 'Z')
    ensures forall i :: 0 <= i < |s| && !('A' <= s[i] <= 'Z') ==> r[i] == s[i]
    ensures forall i :: 0 <= i < |s| ==> r[i] == LowerChar(s[i])
  {
    seq(|s|, i requires 0 <= i < |s| => LowerChar(s[i]))
  }

  /** Lower-casing twice is lower-casing once. */
  lemma LowerIdempotent(s: string)
    ensures Lower(Lower(s)) == Lower(s)
  {
    var once := Lower(s);
    var twice := Lower(once);
    assert forall i :: 0 <= i < |s| ==> twice[i] == once[i];
  }

  /** `needle` occurs in `hay` starting at position i. */
  predicate OccursAt(hay: string, needle: string, i: nat)
  {
    i + |needle| <= |hay| && hay[i..i + |needle|] == needle
  }

  /** Substring containment, as JavaScript's `String.prototype.includes`. */
  predicate Includes(hay: string, needle: string)
    decreases |hay|
  {
    needle <= hay || (hay != [] && Includes(hay[1..], needle))
  }

  /** A slice of the tail is the slice of the whole shifted by one. */
  lemma SliceOfTail(hay: string, j: nat, n: nat)
    requires j + n < |hay|
    ensures hay[1..][j..j + n] == hay[j + 1..j + 1 + n]
  {
    var left, right := hay[1..][j..j + n], hay[j + 1..j + 1 + n];
    assert |left| == n == |right|;
    forall k | 0 <= k < n ensures left[k] == right[k] {
      assert left[k] == hay[1..][j + k] == hay[j + 1 + k];
    }
  }

  /** Includes holds exactly when the needle occurs at some position. */
  lemma {:induction false} IncludesIffOccurs(hay: string, needle: string)
    ensures Includes(hay, needle) <==> exists i: nat :: OccursAt(hay, needle, i)
    decreases |hay|
  {
    if needle <= hay {
      assert OccursAt(hay, needle, 0);
    } else if hay == [] {
      forall i: nat ensures !OccursAt(hay, needle, i) {
      }
    } else {
      IncludesIffOccurs(hay[1..], needle);
      if Includes(hay[1..], needle) {
        var j: nat :| OccursAt(hay[1..], needle, j);
        SliceOfTail(hay, j, |needle|);
        assert OccursAt(hay, needle, j + 1);
      } else {
        forall i: nat ensures !OccursAt(hay, needle, i) {
          if OccursAt(hay, needle, i) {
            if i > 0 {
              SliceOfTail(hay, i - 1, |needle|);
              assert OccursAt(hay[1..], needle, i - 1);
            }
          }
        }
      }
    }
  }

  /** Every string includes the empty string. */
  lemma IncludesEmpty(hay: string)
    ensures Includes(hay, [])
  {
  }

  /** A needle longer than the haystack is never included. */
  lemma {:induction false} NotIncludesLonger(hay: string, needle: string)
    requires |needle| > |hay|
    ensures !Includes(hay, needle)
    decreases |hay|
  {
    if hay != [] {
      NotIncludesLonger(hay[1..], needle);
    }
  }

  /** The search predicate: the lower-cased title includes the lower-cased query. */
  predicate Matches(post: Post, query: string)
  {
    Includes(Lower(post.title), Lower(query))
  }

  /** The posts whose title matches the query, in their original order. */
  function Filter(posts: seq<Post>, query: string): (kept: seq<Post>)
    ensures |kept| <= |posts|
    ensures forall p :: p in kept <==> p in posts && Matches(p, query)
  {
    if posts == [] then []
    else (if Matches(posts[0], query) then [posts[0]] else []) + Filter(posts[1..], query)
  }

  /** `sub` is obtained from `full` by deleting elements, keeping the order. */
  predicate IsSubsequence<T(==)>(sub: seq<T>, full: seq<T>)
    decreases |full|
  {
    if sub == [] then true
    else if full == [] then false
    else (sub[0] == full[0] && IsSubsequence(sub[1..], full[1..])) || IsSubsequence(sub, full[1..])
  }

  /** The filtered list is an order-preserving subsequence of the held list. */
  lemma {:induction false} FilterIsSubsequence(posts: seq<Post>, query: string)
    ensures IsSubsequence(Filter(posts, query), posts)
    decreases |posts|
  {
    if posts != [] {
      FilterIsSubsequence(posts[1..], query);
      var kept := Filter(posts, query);
      if Matches(posts[0], query) {
        assert kept[0] == posts[0] && kept[1..] == Filter(posts[1..], query);
      } else {
        assert kept == Filter(posts[1..], query);
        if kept != [] {
          assert IsSubsequence(kept, posts[1..]);
        }
      }
    }
  }

  /** Each matching post occurs in the filtered list exactly as often as in the
      held list, and no other post occurs in it. With the subsequence property
      this determines the filtered list completely. */
  lemma {:induction false} FilterCounts(posts: seq<Post>, query: string, p: Post)
    ensures multiset(Filter(posts, query))[p] == if Matches(p, query) then multiset(posts)[p] else 0
    decreases |posts|
  {
    if posts != [] {
      FilterCounts(posts[1..], query, p);
      assert posts == [posts[0]] + posts[1..];
      var head := if Matches(posts[0], query) then [posts[0]] else [];
      assert Filter(posts, query) == head + Filter(posts[1..], query);
      assert multiset(Filter(posts, query)) == multiset(head) + multiset(Filter(posts[1..], query));
      assert multiset(posts) == multiset([posts[0]]) + multiset(posts[1..]);
    }
  }

  /** Filtering an already filtered list with the same query changes nothing. */
  lemma {:induction false} FilterIdempotent(posts: seq<Post>, query: string)
    ensures Filter(Filter(posts, query), query) == Filter(posts, query)
    decreases |posts|
  {
    if posts != [] {
      FilterIdempotent(posts[1..], query);
      var rest := Filter(posts[1..], query);
      if Matches(posts[0], query) {
        var kept := Filter(posts, query);
        assert kept == [posts[0]] + rest;
        assert kept[0] == posts[0] && kept[1..] == rest;
      } else {
        assert Filter(posts, query) == rest;
      }
    }
  }

  /** The empty query matches every post, so filtering by it keeps the list. */
  lemma {:induction false} FilterEmptyQuery(posts: seq<Post>)
    ensures Filter(posts, "") == posts
    decreases |posts|
  {
    if posts != [] {
      assert Lower("") == "";
      IncludesEmpty(Lower(posts[0].title));
      FilterEmptyQuery(posts[1..]);
      assert posts == [posts[0]] + posts[1..];
    }
  }

  /** The query's own letter case does not matter. */
  lemma {:induction false} FilterIgnoresQueryCase(posts: seq<Post>, query: string)
    ensures Filter(posts, Lower(query)) == Filter(posts, query)
    decreases |posts|
  {
    LowerIdempotent(query);
    if posts != [] {
      FilterIgnoresQueryCase(posts[1..], query);
    }
  }

  /** Filtering a list with a post in front: the post is kept in front exactly
      when it matches, and the rest is filtered as before. */
  lemma FilterCons(post: Post, posts: seq<Post>, query: string)
    ensures Filter([post] + posts, query) == (if Matches(post, query) then [post] else []) + Filter(posts, query)
  {
    assert ([post] + posts)[1..] == posts;
  }

  /** Prepending a post to a filtered list gives the filter of the extended
      list exactly when the new post matches the query. */
  lemma PrependKeepsFilterIffMatches(post: Post, posts: seq<Post>, query: string)
    ensures [post] + Filter(posts, query) == Filter([post] + posts, query) <==> Matches(post, query)
  {
    FilterCons(post, posts, query);
    if !Matches(post, query) {
      assert |Filter([post] + posts, query)| == |Filter(posts, query)|;
    }
  }

  /** What the search effect shows: the held list itself for an empty query,
      the filtered list otherwise. */
  function SearchResult(posts: seq<Post>, query: string): (shown: seq<Post>)
    ensures query == "" ==> shown == posts
    ensures shown == Filter(posts, query)
  {
    if query != "" then Filter(posts, query)
    else FilterEmptyQuery(posts); posts
  }
}

/** The search on three titles: over posts titled Alpha, Beta and Gamma, the
    query "a" keeps all three, "Al" keeps Alpha and "zzz" keeps none. */
module SearchExamples {
  import opened Blog
  import opened Search

  predicate Greek(a: Post, b: Post, g: Post)
  {
    a.title == "Alpha" && b.title == "Beta" && g.title == "Gamma"
  }

  /** Filtering three posts keeps, in order, those of them that match. */
  lemma ThreeByQuery(a: Post, b: Post, g: Post, query: string)
    ensures Filter([a, b, g], query)
         == (if Matches(a, query) then [a] else []) + (if Matches(b, query) then [b] else [])
          + (if Matches(g, query) then [g] else [])
  {
    assert [a, b, g] == [a] + [b, g];
    FilterCons(a, [b, g], query);
    TwoByQuery(b, g, query);
  }

  lemma TwoByQuery(b: Post, g: Post, query: string)
    ensures Filter([b, g], query) == (if Matches(b, query) then [b] else []) + (if Matches(g, query) then [g] else [])
  {
    assert [b, g] == [b] + [g] && [g] == [g] + [];
    FilterCons(b, [g], query);
    FilterCons(g, [], query);
  }

  lemma LowerGreek(a: Post, b: Post, g: Post)
    requires Greek(a, b, g)
    ensures Lower(a.title) == "alpha" && Lower(b.title) == "beta" && Lower(g.title) == "gamma"
  {
    assert Lower("Alpha") == "alpha";
    assert Lower("Beta") == "beta";
    assert Lower("Gamma") == "gamma";
  }

  lemma MatchesA(a: Post, b: Post, g: Post)
    requires Greek(a, b, g)
    ensures Matches(a, "a") && Matches(b, "a") && Matches(g, "a")
  {
    LowerGreek(a, b, g);
    assert Lower("a") == "a";
    assert "a" <= "alpha";
    assert "a" <= "beta"[3..];
    assert "a" <= "gamma"[1..];
  }

  /** The query "a" keeps all three posts. */
  lemma QueryA(a: Post, b: Post, g: Post)
    requires Greek(a, b, g)
    ensures Filter([a, b, g], "a") == [a, b, g]
  {
    MatchesA(a, b, g);
    ThreeByQuery(a, b, g, "a");
  }

  lemma MatchesAl(a: Post, b: Post, g: Post)
    requires Greek(a, b, g)
    ensures Matches(a, "Al") && !Matches(b, "Al") && !Matches(g, "Al")
  {
    LowerGreek(a, b, g);
    assert Lower("Al") == "al";
    assert "al" <= "alpha";
    NotIncludesLonger("a", "al");
    assert "ta"[1..] == "a" && "eta"[1..] == "ta" && "beta"[1..] == "eta";
    assert !("al" <= "ta") && !("al" <= "eta") && !("al" <= "beta");
    assert "ma"[1..] == "a" && "mma"[1..] == "ma" && "amma"[1..] == "mma" && "gamma"[1..] == "amma";
    assert !("al" <= "ma") && !("al" <= "mma") && !("al" <= "amma") && !("al" <= "gamma");
  }

  /** The query "Al" keeps only the post titled Alpha. */
  lemma QueryAl(a: Post, b: Post, g: Post)
    requires Greek(a, b, g)
    ensures Filter([a, b, g], "Al") == [a]
  {
    MatchesAl(a, b, g);
    ThreeByQuery(a, b, g, "Al");
  }

  /** A title without the letter z never includes "zzz". */
  lemma {:induction false} NoZ(hay: string)
    requires forall i :: 0 <= i < |hay| ==> hay[i] != 'z'
    ensures !Includes(hay, "zzz")
    decreases |hay|
  {
    if hay != [] {
      NoZ(hay[1..]);
      if |hay| >= 3 {
        assert hay[0] != "zzz"[0];
      }
    }
  }

  lemma MatchesZzz(a: Post, b: Post, g: Post)
    requires Greek(a, b, g)
    ensures !Matches(a, "zzz") && !Matches(b, "zzz") && !Matches(g, "zzz")
  {
    LowerGreek(a, b, g);
    assert Lower("zzz") == "zzz";
    NoZ("alpha");
    NoZ("beta");
    NoZ("gamma");
  }

  /** The query "zzz" keeps none of the three posts. */
  lemma QueryZzz(a: Post, b: Post, g: Post)
    requires Greek(a, b, g)
    ensures Filter([a, b, g], "zzz") == []
  {
    MatchesZzz(a, b, g);
    ThreeByQuery(a, b, g, "zzz");
  }
}
