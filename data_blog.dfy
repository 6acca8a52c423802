/**
 * The data blog section (src/components/Blog/DataBlog.tsx): the post list is
 * split into one featured post and the regular posts, each regular card takes
 * the scroll-animation hook at its position, and a modal shows one article.
 */
module DataBlog {
  import opened Wrappers

  /** The fields of a post that the partition and the modal use; `featured` is optional. */
  datatype BlogPost = BlogPost(id: int, title: string, featured: Option<bool>)

  /** `post.featured` is truthy: present and true. */
  predicate IsFeatured(p: BlogPost) {
    p.featured == Some(true)
  }

  const BlogData: seq<BlogPost> := [
    BlogPost(1, "The Art and Science of Data Visualization", Some(true)),
    BlogPost(2, "Machine Learning Models Explained", Some(false)),
    BlogPost(3, "Python Libraries Every Data Scientist Should Know", Some(false)),
    BlogPost(4, "Ethics in Data Science: Navigating Bias and Privacy", Some(false)),
    BlogPost(5, "Time Series Analysis: Techniques and Applications", Some(false))
  ]

  /** `postAnimations` holds four hooks, indexed by a regular post's position. */
  const PostAnimationCount := 4

  // ---------------------------------------------------------------------------
  // featuredPost and regularPosts
  // ---------------------------------------------------------------------------

  /** `posts.find(post => post.featured)`: the first featured post, if there is one. */
  function FeaturedPost(posts: seq<BlogPost>): (r: Option<BlogPost>)
    ensures r.None? <==> forall k :: 0 <= k < |posts| ==> !IsFeatured(posts[k])
    ensures r.Some? ==> exists k :: 0 <= k < |posts| && posts[k] == r.value && IsFeatured(posts[k])
                                    && forall j :: 0 <= j < k ==> !IsFeatured(posts[j])
  {
    if posts == [] then None
    else if IsFeatured(posts[0]) then Some(posts[0])
    else
      var rest := FeaturedPost(posts[1..]);
      assert forall k :: 1 <= k < |posts| ==> posts[k] == posts[1..][k - 1];
      rest
  }

  /** `posts.filter(post => !post.featured)`. */
  function RegularPosts(posts: seq<BlogPost>): (r: seq<BlogPost>)
    ensures |r| <= |posts|
    ensures forall k :: 0 <= k < |r| ==> !IsFeatured(r[k])
  {
    if posts == [] then []
    else (if IsFeatured(posts[0]) then [] else [posts[0]]) + RegularPosts(posts[1..])
  }

  /** The regular posts are exactly the non-featured ones. */
  lemma {:induction false} RegularMembership(posts: seq<BlogPost>, p: BlogPost)
    ensures p in RegularPosts(posts) <==> p in posts && !IsFeatured(p)
  {
    if posts != [] {
      RegularMembership(posts[1..], p);
      assert posts == [posts[0]] + posts[1..];
    }
  }

  /** Filtering a concatenation filters each part in place: the regular posts keep their order. */
  lemma {:induction false} RegularAppend(front: seq<BlogPost>, back: seq<BlogPost>)
    ensures RegularPosts(front + back) == RegularPosts(front) + RegularPosts(back)
  {
    if front == [] {
      assert front + back == back;
    } else {
      assert (front + back)[1..] == front[1..] + back;
      RegularAppend(front[1..], back);
    }
  }

  /** A featured post other than the first featured one is shown nowhere. */
  lemma LaterFeaturedHidden(posts: seq<BlogPost>, p: BlogPost)
    requires p in posts && IsFeatured(p) && FeaturedPost(posts) != Some(p)
    ensures p !in RegularPosts(posts)
    ensures FeaturedPost(posts).Some? && FeaturedPost(posts).value != p
  {
    RegularMembership(posts, p);
  }

  /** Every post is shown at most once: it is either the featured post or regular, never both. */
  lemma ShownOnce(posts: seq<BlogPost>, p: BlogPost)
    requires FeaturedPost(posts) == Some(p)
    ensures p !in RegularPosts(posts)
  {
    RegularMembership(posts, p);
  }

  /**
   * On the site's data, post 1 is featured and posts 2 to 5 are regular, so
   * every regular card finds its hook among the four in `postAnimations`.
   */
  lemma BlogDataPartition()
    ensures FeaturedPost(BlogData) == Some(BlogData[0])
    ensures RegularPosts(BlogData) == BlogData[1..]
    ensures |RegularPosts(BlogData)| <= PostAnimationCount
  {
    assert BlogData[1..][1..][1..][1..][1..] == [];
  }

  // ---------------------------------------------------------------------------
  // The article modal.
  // ---------------------------------------------------------------------------

  class BlogModal {
    var selectedPost: Option<BlogPost>
    var isModalOpen: bool

    /** An open modal always has a post to show. */
    ghost predicate Valid()
      reads this
    {
      isModalOpen ==> selectedPost.Some?
    }

    constructor ()
      ensures Valid()
      ensures selectedPost == None && !isModalOpen
    {
      selectedPost := None;
      isModalOpen := false;
    }

    /** `handleOpenArticle(post)`: select the post and open the modal. */
    method OpenArticle(post: BlogPost)
      modifies this
      ensures Valid()
      ensures selectedPost == Some(post) && isModalOpen
    {
      selectedPost := Some(post);
      isModalOpen := true;
    }

    /** `handleCloseModal`: close the modal; the selected post stays. */
    method CloseModal()
      requires Valid()
      modifies this
      ensures Valid()
      ensures !isModalOpen && selectedPost == old(selectedPost)
    {
      isModalOpen := false;
    }
  }
}
