/**
 * The blog section's list logic: the featured posts, the three most recent
 * non-featured posts, the first three tags of a card, and the author's
 * initials in the avatar circle.
 */
module BlogSection {

  /** The fields the list logic reads; excerpt, dates and images are display only. */
  datatype BlogPost = BlogPost(
    id: nat,
    title: string,
    author: string,
    category: string,
    tags: seq<string>,
    featured: bool)

  const BlogPosts: seq<BlogPost> := [
    BlogPost(1, "The Future of Web Development: Trends to Watch in 2024", "Alex Johnson",
      "Web Development", ["React", "Next.js", "AI", "PWA"], true),
    BlogPost(2, "Mobile-First Design: Why Your Business Can't Afford to Wait", "Sarah Chen",
      "Mobile Development", ["Mobile", "UX", "Design", "Flutter"], true),
    BlogPost(3, "AI Automation: How to Save 40+ Hours Per Week", "Emily Davis",
      "AI & Automation", ["AI", "Automation", "Productivity", "ROI"], true),
    BlogPost(4, "SEO in 2024: Technical Optimization That Actually Works", "Michael Rodriguez",
      "SEO & Marketing", ["SEO", "Technical", "Marketing", "Growth"], false),
    BlogPost(5, "Building Scalable Applications: Lessons from 50+ Projects", "Alex Johnson",
      "Architecture", ["Scalability", "Architecture", "Best Practices"], false),
    BlogPost(6, "The ROI of Custom Software: When to Build vs Buy", "Lisa Thompson",
      "Business Strategy", ["ROI", "Strategy", "Custom Software"], false)
  ]

  /** How many recent posts and how many tags per card are shown. */
  const MaxShown: nat := 3

  // ---------------------------------------------------------------- lists

  /** `blogPosts.filter(post => post.featured)`. */
  function FeaturedPosts(posts: seq<BlogPost>): (r: seq<BlogPost>)
    ensures |r| <= |posts|
  {
    if posts == [] then []
    else (if posts[0].featured then [posts[0]] else []) + FeaturedPosts(posts[1..])
  }

  /** `blogPosts.filter(post => !post.featured)`. */
  function NonFeaturedPosts(posts: seq<BlogPost>): (r: seq<BlogPost>)
    ensures |r| <= |posts|
  {
    if posts == [] then []
    else (if posts[0].featured then [] else [posts[0]]) + NonFeaturedPosts(posts[1..])
  }

  /** `….slice(0, 3)`: at most the first `n` elements. */
  function Take<T>(s: seq<T>, n: nat): (r: seq<T>)
    ensures |r| == if |s| < n then |s| else n
    ensures r <= s
  {
    if |s| <= n then s else s[..n]
  }

  /** The "recent articles" grid: the first three non-featured posts. */
  function RecentPosts(posts: seq<BlogPost>): (r: seq<BlogPost>)
    ensures |r| == if |NonFeaturedPosts(posts)| < MaxShown then |NonFeaturedPosts(posts)| else MaxShown
    ensures forall p :: p in r ==> p in posts && !p.featured
    ensures r <= NonFeaturedPosts(posts)
  {
    NonFeaturedMembers(posts);
    Take(NonFeaturedPosts(posts), MaxShown)
  }

  /** The featured list holds exactly the featured posts. */
  lemma {:induction false} FeaturedMembers(posts: seq<BlogPost>)
    ensures forall p :: p in FeaturedPosts(posts) <==> p in posts && p.featured
  {
    if posts != [] {
      FeaturedMembers(posts[1..]);
      assert posts == [posts[0]] + posts[1..];
    }
  }

  /** The non-featured list holds exactly the posts that are not featured. */
  lemma {:induction false} NonFeaturedMembers(posts: seq<BlogPost>)
    ensures forall p :: p in NonFeaturedPosts(posts) <==> p in posts && !p.featured
  {
    if posts != [] {
      NonFeaturedMembers(posts[1..]);
      assert posts == [posts[0]] + posts[1..];
    }
  }

  /** Filtering keeps source order: it distributes over concatenation. */
  lemma {:induction false} FeaturedKeepsOrder(a: seq<BlogPost>, b: seq<BlogPost>)
    ensures FeaturedPosts(a + b) == FeaturedPosts(a) + FeaturedPosts(b)
  {
    if a == [] {
      assert a + b == b;
    } else {
      var head := if a[0].featured then [a[0]] else [];
      assert (a + b)[0] == a[0];
      assert (a + b)[1..] == a[1..] + b;
      FeaturedKeepsOrder(a[1..], b);
      calc {
        FeaturedPosts(a + b);
        head + FeaturedPosts(a[1..] + b);
        head + (FeaturedPosts(a[1..]) + FeaturedPosts(b));
        (head + FeaturedPosts(a[1..])) + FeaturedPosts(b);
      }
    }
  }

  /** The same for the non-featured posts. */
  lemma {:induction false} NonFeaturedKeepsOrder(a: seq<BlogPost>, b: seq<BlogPost>)
    ensures NonFeaturedPosts(a + b) == NonFeaturedPosts(a) + NonFeaturedPosts(b)
  {
    if a == [] {
      assert a + b == b;
    } else {
      var head := if a[0].featured then [] else [a[0]];
      assert (a + b)[0] == a[0];
      assert (a + b)[1..] == a[1..] + b;
      NonFeaturedKeepsOrder(a[1..], b);
      calc {
        NonFeaturedPosts(a + b);
        head + NonFeaturedPosts(a[1..] + b);
        head + (NonFeaturedPosts(a[1..]) + NonFeaturedPosts(b));
        (head + NonFeaturedPosts(a[1..])) + NonFeaturedPosts(b);
      }
    }
  }

  /** Every post lands in exactly one of the two filters, so the counts add up. */
  lemma {:induction false} FiltersPartition(posts: seq<BlogPost>)
    ensures |FeaturedPosts(posts)| + |NonFeaturedPosts(posts)| == |posts|
  {
    if posts != [] {
      FiltersPartition(posts[1..]);
    }
  }

  /** No post is shown both as featured and as recent. */
  lemma FeaturedAndRecentDisjoint(posts: seq<BlogPost>)
    ensures forall p :: p in FeaturedPosts(posts) ==> p !in RecentPosts(posts)
  {
    FeaturedMembers(posts);
  }

  /** A list of featured posts is its own featured list and has no non-featured post. */
  lemma {:induction false} AllFeatured(posts: seq<BlogPost>)
    requires forall i :: 0 <= i < |posts| ==> posts[i].featured
    ensures FeaturedPosts(posts) == posts && NonFeaturedPosts(posts) == []
  {
    if posts != [] {
      var tail := posts[1..];
      assert forall i :: 0 <= i < |tail| ==> tail[i].featured by {
        forall i | 0 <= i < |tail|
          ensures tail[i].featured
        {
          assert tail[i] == posts[i + 1];
        }
      }
      AllFeatured(tail);
      assert posts == [posts[0]] + tail;
    }
  }

  /** A list without featured posts is its own non-featured list. */
  lemma {:induction false} NoneFeatured(posts: seq<BlogPost>)
    requires forall i :: 0 <= i < |posts| ==> !posts[i].featured
    ensures FeaturedPosts(posts) == [] && NonFeaturedPosts(posts) == posts
  {
    if posts != [] {
      var tail := posts[1..];
      assert forall i :: 0 <= i < |tail| ==> !tail[i].featured by {
        forall i | 0 <= i < |tail|
          ensures !tail[i].featured
        {
          assert tail[i] == posts[i + 1];
        }
      }
      NoneFeatured(tail);
      assert posts == [posts[0]] + tail;
    }
  }

  /** The posts before the cut are all featured. */
  lemma FrontFeatured(posts: seq<BlogPost>, k: nat)
    requires k <= |posts|
    requires forall i :: 0 <= i < |posts| ==> (posts[i].featured <==> i < k)
    ensures forall i :: 0 <= i < |posts[..k]| ==> posts[..k][i].featured
  {
    forall i | 0 <= i < |posts[..k]|
      ensures posts[..k][i].featured
    {
      assert posts[..k][i] == posts[i];
    }
  }

  /** The posts from the cut on are not featured. */
  lemma BackNotFeatured(posts: seq<BlogPost>, k: nat)
    requires k <= |posts|
    requires forall i :: 0 <= i < |posts| ==> (posts[i].featured <==> i < k)
    ensures forall i :: 0 <= i < |posts[k..]| ==> !posts[k..][i].featured
  {
    forall i | 0 <= i < |posts[k..]|
      ensures !posts[k..][i].featured
    {
      assert posts[k..][i] == posts[k + i];
    }
  }

  /** When exactly the first `k` posts are featured, the two filters cut the list at `k`. */
  lemma FeaturedFirst(posts: seq<BlogPost>, k: nat)
    requires k <= |posts|
    requires forall i :: 0 <= i < |posts| ==> (posts[i].featured <==> i < k)
    ensures FeaturedPosts(posts) == posts[..k] && NonFeaturedPosts(posts) == posts[k..]
  {
    var front := posts[..k];
    var back := posts[k..];
    assert posts == front + back;
    FrontFeatured(posts, k);
    BackNotFeatured(posts, k);
    AllFeatured(front);
    NoneFeatured(back);
    FeaturedKeepsOrder(front, back);
    NonFeaturedKeepsOrder(front, back);
    assert front + [] == front;
    assert [] + back == back;
  }

  /** With the shipped posts: posts 1-3 are featured and posts 4-6 are the recent ones. */
  lemma ShippedPostsSplitThreeAndThree()
    ensures FeaturedPosts(BlogPosts) == BlogPosts[..3]
    ensures RecentPosts(BlogPosts) == BlogPosts[3..]
  {
    assert forall i :: 0 <= i < |BlogPosts| ==> (BlogPosts[i].featured <==> i < 3);
    FeaturedFirst(BlogPosts, 3);
  }

  // ---------------------------------------------------------------- tags

  /** `post.tags.slice(0, 3)`: the first three tags, in order, or all of them when there are fewer. */
  function TagsShown(post: BlogPost): (r: seq<string>)
    ensures |r| == if |post.tags| < MaxShown then |post.tags| else MaxShown
    ensures r <= post.tags
    ensures |post.tags| <= MaxShown ==> r == post.tags
  {
    Take(post.tags, MaxShown)
  }

  // ---------------------------------------------------------------- initials

  /** `s.split(' ')`: the pieces between single spaces, empty pieces included. */
  function Split(s: string): (parts: seq<string>)
    ensures |parts| >= 1
    ensures forall i :: 0 <= i < |parts| ==> ' ' !in parts[i]
  {
    if s == [] then [[]]
    else if s[0] == ' ' then [[]] + Split(s[1..])
    else
      var rest := Split(s[1..]);
      [[s[0]] + rest[0]] + rest[1..]
  }

  /** `parts.join(' ')`. */
  function Join(parts: seq<string>): string
    requires |parts| >= 1
  {
    if |parts| == 1 then parts[0] else parts[0] + " " + Join(parts[1..])
  }

  /** Splitting on spaces and joining with spaces gives the name back. */
  lemma {:induction false} JoinSplit(s: string)
    ensures Join(Split(s)) == s
  {
    if s != [] {
      JoinSplit(s[1..]);
      var rest := Split(s[1..]);
      if s[0] == ' ' {
        assert Split(s) == [[]] + rest;
        assert Split(s)[1..] == rest;
        assert s == [] + " " + s[1..];
      } else {
        var parts := Split(s);
        assert parts[0] == [s[0]] + rest[0];
        if |rest| == 1 {
          assert parts == [[s[0]] + rest[0]];
        } else {
          assert parts[1..] == rest[1..];
          assert Join(parts) == parts[0] + " " + Join(rest[1..]);
          assert Join(rest) == rest[0] + " " + Join(rest[1..]);
        }
      }
    }
  }

  /** `.map(n => n[0]).join('')`: an empty piece yields `undefined`, which joins as nothing. */
  function FirstLetters(parts: seq<string>): (r: string)
    ensures |r| <= |parts|
  {
    if parts == [] then []
    else (if parts[0] == [] then [] else [parts[0][0]]) + FirstLetters(parts[1..])
  }

  /** The pieces that have a first character, in order. */
  function NonEmptyParts(parts: seq<string>): (r: seq<string>)
    ensures |r| <= |parts|
    ensures forall k :: 0 <= k < |r| ==> r[k] != []
  {
    if parts == [] then []
    else (if parts[0] == [] then [] else [parts[0]]) + NonEmptyParts(parts[1..])
  }

  /** The k-th initial is the first character of the k-th non-empty piece. */
  lemma {:induction false} FirstLettersAreHeads(parts: seq<string>)
    ensures |FirstLetters(parts)| == |NonEmptyParts(parts)|
    ensures forall k :: 0 <= k < |FirstLetters(parts)| ==> FirstLetters(parts)[k] == NonEmptyParts(parts)[k][0]
  {
    if parts != [] {
      FirstLettersAreHeads(parts[1..]);
    }
  }

  /** The avatar initials of an author name. */
  function Initials(author: string): (r: string)
    ensures |r| == |NonEmptyParts(Split(author))|
    ensures forall k :: 0 <= k < |r| ==> r[k] == NonEmptyParts(Split(author))[k][0]
    ensures forall c :: c in r ==> c in author && c != ' '
  {
    InitialsInName(Split(author), author);
    FirstLettersAreHeads(Split(author));
    FirstLetters(Split(author))
  }

  /** Every initial is a character of some piece. */
  lemma {:induction false} FirstLettersFromParts(parts: seq<string>)
    ensures forall c :: c in FirstLetters(parts) ==> exists i :: 0 <= i < |parts| && c in parts[i]
  {
    if parts != [] {
      FirstLettersFromParts(parts[1..]);
      forall c | c in FirstLetters(parts)
        ensures exists i :: 0 <= i < |parts| && c in parts[i]
      {
        if parts[0] != [] && c == parts[0][0] {
          assert c in parts[0];
        } else {
          var i :| 0 <= i < |parts[1..]| && c in parts[1..][i];
          assert c in parts[i + 1];
        }
      }
    }
  }

  /** Every character of a piece of a split name is a character of the name. */
  lemma {:induction false} SplitPartsInName(s: string)
    ensures forall i, c :: 0 <= i < |Split(s)| && c in Split(s)[i] ==> c in s
  {
    if s != [] {
      SplitPartsInName(s[1..]);
      forall i, c | 0 <= i < |Split(s)| && c in Split(s)[i]
        ensures c in s
      {
        var rest := Split(s[1..]);
        if s[0] == ' ' {
          assert Split(s)[i] == ([[]] + rest)[i];
          if i > 0 {
            assert Split(s)[i] == rest[i - 1];
            assert c in s[1..];
          }
        } else if i == 0 {
          assert Split(s)[0] == [s[0]] + rest[0];
          if c != s[0] {
            assert c in rest[0];
            assert c in s[1..];
          }
        } else {
          assert Split(s)[i] == rest[i];
          assert c in s[1..];
        }
      }
    }
  }

  lemma InitialsInName(parts: seq<string>, author: string)
    requires parts == Split(author)
    ensures forall c :: c in FirstLetters(parts) ==> c in author && c != ' '
  {
    FirstLettersFromParts(parts);
    SplitPartsInName(author);
  }

  /** A word without spaces is one piece. */
  lemma {:induction false} SplitWord(w: string)
    requires ' ' !in w
    ensures Split(w) == [w]
  {
    if w != [] {
      SplitWord(w[1..]);
      assert [w[0]] + w[1..] == w;
      assert Split(w) == [[w[0]] + w[1..]] + [w[1..]][1..];
    }
  }

  /** A word followed by a space is split off as the first piece. */
  lemma {:induction false} SplitWordThenSpace(w: string, rest: string)
    requires ' ' !in w
    ensures Split(w + " " + rest) == [w] + Split(rest)
  {
    if w == [] {
      assert w + " " + rest == [' '] + rest;
      assert (w + " " + rest)[1..] == rest;
    } else {
      SplitWordThenSpace(w[1..], rest);
      assert (w + " " + rest)[1..] == w[1..] + " " + rest;
      assert [w[0]] + w[1..] == w;
    }
  }

  /** Joining space-free words with single spaces and splitting again gives the words back. */
  lemma {:induction false} SplitJoin(ws: seq<string>)
    requires |ws| >= 1
    requires forall i :: 0 <= i < |ws| ==> ' ' !in ws[i]
    ensures Split(Join(ws)) == ws
  {
    if |ws| == 1 {
      SplitWord(ws[0]);
    } else {
      SplitJoin(ws[1..]);
      SplitWordThenSpace(ws[0], Join(ws[1..]));
      assert ws == [ws[0]] + ws[1..];
    }
  }

  /** Non-empty pieces are all kept. */
  lemma {:induction false} AllNonEmpty(ws: seq<string>)
    requires forall i :: 0 <= i < |ws| ==> ws[i] != []
    ensures NonEmptyParts(ws) == ws
  {
    if ws != [] {
      AllNonEmpty(ws[1..]);
      assert ws == [ws[0]] + ws[1..];
    }
  }

  /** A name made of words separated by single spaces gets the first letter of each word, in order. */
  lemma InitialsOfWords(ws: seq<string>)
    requires |ws| >= 1
    requires forall i :: 0 <= i < |ws| ==> ws[i] != [] && ' ' !in ws[i]
    ensures Initials(Join(ws)) == seq(|ws|, i requires 0 <= i < |ws| => ws[i][0])
  {
    SplitJoin(ws);
    AllNonEmpty(ws);
  }

  /** "Alex Johnson" splits into its two words. */
  lemma AlexJohnsonPieces()
    ensures Split("Alex Johnson") == ["Alex", "Johnson"]
  {
    NoSpaceInAlex();
    NoSpaceInJohnson();
    SplitWordThenSpace("Alex", "Johnson");
    SplitWord("Johnson");
    AlexJohnsonJoined();
  }

  lemma NoSpaceInAlex()
    ensures ' ' !in "Alex"
  {
  }

  lemma NoSpaceInJohnson()
    ensures ' ' !in "Johnson"
  {
  }

  lemma AlexJohnsonJoined()
    ensures "Alex" + " " + "Johnson" == "Alex Johnson"
  {
  }

  /** "Alex Johnson" gets the avatar "AJ". */
  lemma AlexJohnsonInitials()
    ensures Initials("Alex Johnson") == "AJ"
  {
    AlexJohnsonPieces();
    assert FirstLetters(["Johnson"]) == "J" by {
      assert ["Johnson"][1..] == [];
    }
    assert ["Alex", "Johnson"][1..] == ["Johnson"];
  }
}
