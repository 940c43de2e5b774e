/**
 * Detection of blocks that render from live data, and the save/restore of
 * WordPress's query globals around a render (class DynamicContext).
 */
module DynamicContext {
  import opened Php
  import opened Wp

  // ------------------------------------------------------------ detection

  /** `$registry->get_registered($name)` */
  function LookupBlockType(types: seq<BlockType>, name: string): (r: Option<BlockType>)
    ensures r.Some? ==> r.value in types && r.value.name == name
    ensures r.None? ==> forall t :: t in types ==> t.name != name
  {
    if types == [] then None
    else if types[0].name == name then Some(types[0])
    else LookupBlockType(types[1..], name)
  }

  /** `is_dynamic_block`: the empty name is never dynamic; a registered
      block's default verdict is "has a render callback", an unregistered
      one's is false; the `wp_vrt_is_dynamic_block` filter has the last word. */
  function IsDynamicBlock(env: BlockEnv, name: string): bool {
    if name == "" then false
    else
      var t := if env.registryLoaded then LookupBlockType(env.types, name) else None;
      if t.Some? then env.dynamicFilter(t.value.hasRenderCallback, name)
      else env.dynamicFilter(false, name)
  }

  /** With no filter callback, a block is dynamic exactly when it is a
      registered type that has a render callback. */
  lemma IsDynamicWithoutFilter(env: BlockEnv, name: string)
    requires forall d, n :: env.dynamicFilter(d, n) == d
    ensures IsDynamicBlock(env, name) <==>
      name != "" && env.registryLoaded &&
      exists t :: t in env.types && t.name == name && t.hasRenderCallback
  {
    if name != "" && env.registryLoaded && LookupBlockType(env.types, name).Some? {
      var t := LookupBlockType(env.types, name).value;
      forall u | u in env.types && u.name == name ensures u == t {
        var i :| 0 <= i < |env.types| && env.types[i] == u;
        var j :| 0 <= j < |env.types| && env.types[j] == t;
        assert i == j;
      }
    }
  }

  /** Whether the node itself is a dynamic block (`!empty($block['blockName'])`). */
  predicate IsDynamicNode(env: BlockEnv, b: ParsedBlock) {
    Truthy(b.blockName) && IsDynamicBlock(env, b.blockName)
  }

  /** `contains_dynamic_block`: depth-first search through `innerBlocks`. */
  function ContainsDynamicBlock(env: BlockEnv, blocks: seq<ParsedBlock>): bool
    decreases blocks
  {
    if blocks == [] then false
    else
      IsDynamicNode(env, blocks[0])
      || (blocks[0].innerBlocks != [] && ContainsDynamicBlock(env, blocks[0].innerBlocks))
      || ContainsDynamicBlock(env, blocks[1..])
  }

  /** All nodes of a block forest, at every depth, in document order. */
  function Nodes(blocks: seq<ParsedBlock>): seq<ParsedBlock>
    decreases blocks
  {
    if blocks == [] then []
    else [blocks[0]] + Nodes(blocks[0].innerBlocks) + Nodes(blocks[1..])
  }

  /** The search finds a dynamic block iff one occurs at some depth. */
  lemma {:induction false} ContainsDynamicBlockIff(env: BlockEnv, blocks: seq<ParsedBlock>)
    ensures ContainsDynamicBlock(env, blocks) <==> exists b :: b in Nodes(blocks) && IsDynamicNode(env, b)
    decreases blocks
  {
    if blocks != [] {
      ContainsDynamicBlockIff(env, blocks[0].innerBlocks);
      ContainsDynamicBlockIff(env, blocks[1..]);
      var ns := Nodes(blocks);
      assert ns == [blocks[0]] + Nodes(blocks[0].innerBlocks) + Nodes(blocks[1..]);
      if ContainsDynamicBlock(env, blocks) {
        if IsDynamicNode(env, blocks[0]) {
          assert blocks[0] in ns;
        } else if blocks[0].innerBlocks != [] && ContainsDynamicBlock(env, blocks[0].innerBlocks) {
          var b :| b in Nodes(blocks[0].innerBlocks) && IsDynamicNode(env, b);
          assert b in ns;
        } else {
          var b :| b in Nodes(blocks[1..]) && IsDynamicNode(env, b);
          assert b in ns;
        }
      }
      if exists b :: b in ns && IsDynamicNode(env, b) {
        var b :| b in ns && IsDynamicNode(env, b);
        if b != blocks[0] && b !in Nodes(blocks[1..]) {
          assert b in Nodes(blocks[0].innerBlocks);
          assert blocks[0].innerBlocks != [];
        }
      }
    }
  }

  /** A dynamic block three levels inside non-dynamic wrappers is found. */
  lemma NestedDynamicBlockDetected(env: BlockEnv, outer: string, middle: string, inner: string, dynamic: string)
    requires Truthy(dynamic) && IsDynamicBlock(env, dynamic)
    ensures ContainsDynamicBlock(env,
      [ParsedBlock(outer, [ParsedBlock(middle, [ParsedBlock(inner, [ParsedBlock(dynamic, [])])])])])
  {
    var d := ParsedBlock(dynamic, []);
    var c := ParsedBlock(inner, [d]);
    var b := ParsedBlock(middle, [c]);
    assert ContainsDynamicBlock(env, [d]);
    assert [c][0].innerBlocks == [d];
    assert ContainsDynamicBlock(env, [c]);
    assert [b][0].innerBlocks == [c];
    assert ContainsDynamicBlock(env, [b]);
  }

  /** `content_has_dynamic_blocks`: empty content is never parsed. */
  function ContentHasDynamicBlocks(env: BlockEnv, content: string): (r: bool)
    ensures content == "" ==> !r
    ensures content != "" ==> (r <==> exists b :: b in Nodes(env.parse(content)) && IsDynamicNode(env, b))
  {
    if content == "" then false
    else
      ContainsDynamicBlockIff(env, env.parse(content));
      ContainsDynamicBlock(env, env.parse(content))
  }

  // ------------------------------------------------------ global state

  datatype Post = Post(id: nat, postType: string)
  /** A `WP_Query` for one post: the id and type it asks for, and the post
      it found (its `post` property), if any. */
  datatype Query = Query(postId: nat, postType: string, current: Option<Post>)

  /** The post a query for `id` of type `postType`, in any status, finds. */
  function FindPost(posts: map<nat, Post>, id: nat, postType: string): (r: Option<Post>)
    ensures r.Some? <==> id in posts && posts[id].postType == postType
    ensures r.Some? ==> r.value == posts[id]
  {
    if id in posts && posts[id].postType == postType then Some(posts[id]) else None
  }

  /** The global `$post` after `wp_reset_postdata`: the current post of the
      global query when it has one, otherwise unchanged. */
  function ResetPostdata(wpQuery: Option<Query>, post: Option<Post>): (r: Option<Post>)
    ensures wpQuery.Some? && wpQuery.value.current.Some? ==> r == wpQuery.value.current
    ensures !(wpQuery.Some? && wpQuery.value.current.Some?) ==> r == post
  {
    if wpQuery.Some? && wpQuery.value.current.Some? then wpQuery.value.current else post
  }

  /** The globals a render depends on (`$wp_query`, `$wp_the_query`, `$post`)
      and the posts table, with the id `wp_insert_post` hands out next. */
  class Globals {
    var wpQuery: Option<Query>
    var wpTheQuery: Option<Query>
    var post: Option<Post>
    var posts: map<nat, Post>
    var nextId: nat

    ghost predicate Valid()
      reads this
    {
      && 0 < nextId
      && forall id :: id in posts ==> 0 < id < nextId && posts[id].id == id
    }

    constructor (posts: map<nat, Post>, nextId: nat)
      requires 0 < nextId
      requires forall id :: id in posts ==> 0 < id < nextId && posts[id].id == id
      ensures Valid()
      ensures wpQuery.None? && wpTheQuery.None? && post.None?
      ensures this.posts == posts && this.nextId == nextId
    {
      wpQuery, wpTheQuery, post := None, None, None;
      this.posts, this.nextId := posts, nextId;
    }

    /** `get_post($id)`: id 0 falls back to the global `$post`. */
    function GetPost(id: int): Option<Post>
      reads this
    {
      if id == 0 then post
      else if id > 0 && id in posts then Some(posts[id])
      else None
    }
  }

  /** What `setup` obtains from filters and queries: the (int-cast) value of
      `wp_vrt_dynamic_post_id` when it is truthy, the newest published post,
      the post type of the `wp_vrt_dynamic_fallback_post` arguments (None
      when the filter returns a non-array) and whether `wp_insert_post`
      succeeds. */
  datatype SetupInput = SetupInput(
    configuredPostId: Option<int>,
    latestPublished: Option<Post>,
    fallbackPostType: Option<string>,
    insertSucceeds: bool)

  /** The post `setup` uses before it considers a temporary one. */
  function ChosenPost(inp: SetupInput, g: Globals): Option<Post>
    reads g
  {
    if inp.configuredPostId.Some? then g.GetPost(inp.configuredPostId.value)
    else inp.latestPublished
  }

  /** Whether `create_temporary_post` would succeed. */
  predicate CanCreateTemporary(inp: SetupInput) {
    inp.fallbackPostType.Some? && inp.insertSucceeds
  }

  class DynamicContext {
    var previousQuery: Option<Query>
    var previousTheQuery: Option<Query>
    var previousPost: Option<Post>
    var temporaryPostId: Option<nat>

    constructor ()
      ensures previousQuery.None? && previousTheQuery.None? && previousPost.None?
      ensures temporaryPostId.None?
    {
      previousQuery, previousTheQuery, previousPost := None, None, None;
      temporaryPostId := None;
    }

    /** `create_temporary_post`: inserts a draft and remembers its id; the id
        is recorded only when the insert succeeds. */
    method CreateTemporaryPost(g: Globals, inp: SetupInput) returns (p: Option<Post>)
      requires g.Valid()
      modifies this`temporaryPostId, g`posts, g`nextId
      ensures g.Valid()
      ensures !CanCreateTemporary(inp) ==>
        p.None? && temporaryPostId == old(temporaryPostId) &&
        g.posts == old(g.posts) && g.nextId == old(g.nextId)
      ensures CanCreateTemporary(inp) ==>
        var t := Post(old(g.nextId), inp.fallbackPostType.value);
        && old(g.nextId) !in old(g.posts)
        && p == Some(t) && temporaryPostId == Some(t.id)
        && g.posts == old(g.posts)[t.id := t] && g.nextId == old(g.nextId) + 1
    {
      if inp.fallbackPostType.None? || !inp.insertSucceeds {
        return None;
      }
      var id := g.nextId;
      g.posts := g.posts[id := Post(id, inp.fallbackPostType.value)];
      g.nextId := g.nextId + 1;
      temporaryPostId := Some(id);
      p := g.GetPost(id);
    }

    /** `setup`: prefers the configured post, then the newest published one,
        then a temporary post; with none it returns without touching any
        global. Otherwise it saves all three globals, then points them at a
        query for the chosen post and, when the query finds it, makes that
        post current (`the_post`). */
    method Setup(g: Globals, inp: SetupInput)
      requires g.Valid()
      modifies this, g
      ensures g.Valid()
      ensures var chosen := old(ChosenPost(inp, g));
        var p := if chosen.Some? then chosen
                 else if CanCreateTemporary(inp) then Some(Post(old(g.nextId), inp.fallbackPostType.value))
                 else None;
        && (chosen.Some? || !CanCreateTemporary(inp) ==>
              g.posts == old(g.posts) && g.nextId == old(g.nextId) && temporaryPostId == old(temporaryPostId))
        && (chosen.None? && CanCreateTemporary(inp) ==>
              g.posts == old(g.posts)[old(g.nextId) := p.value] && g.nextId == old(g.nextId) + 1 &&
              temporaryPostId == Some(old(g.nextId)))
        && (p.None? ==>
              g.wpQuery == old(g.wpQuery) && g.wpTheQuery == old(g.wpTheQuery) && g.post == old(g.post) &&
              previousQuery == old(previousQuery) && previousTheQuery == old(previousTheQuery) &&
              previousPost == old(previousPost))
        && (p.Some? ==>
              previousQuery == old(g.wpQuery) && previousTheQuery == old(g.wpTheQuery) &&
              previousPost == old(g.post) &&
              g.wpQuery == Some(Query(p.value.id, p.value.postType, FindPost(g.posts, p.value.id, p.value.postType))) &&
              g.wpTheQuery == g.wpQuery && g.post == p)
    {
      var p := ChosenPost(inp, g);
      if p.None? {
        p := CreateTemporaryPost(g, inp);
      }
      if p.None? {
        return;
      }
      previousQuery := g.wpQuery;
      previousTheQuery := g.wpTheQuery;
      previousPost := g.post;
      var q := Query(p.value.id, p.value.postType, FindPost(g.posts, p.value.id, p.value.postType));
      g.wpQuery := Some(q);
      g.wpTheQuery := Some(q);
      g.post := p;
      if q.current.Some? {
        g.post := q.current;
      }
    }

    /** `reset`: restores each global whose saved value is non-null, points
        `$post` back at the restored query's post (`wp_reset_postdata`),
        then deletes the temporary post, if any, and forgets its id. */
    method Reset(g: Globals)
      requires g.Valid()
      modifies this`temporaryPostId, g
      ensures g.Valid() && g.nextId == old(g.nextId)
      ensures g.wpQuery == (if previousQuery.Some? then previousQuery else old(g.wpQuery))
      ensures g.wpTheQuery == (if previousTheQuery.Some? then previousTheQuery else old(g.wpTheQuery))
      ensures g.post == ResetPostdata(g.wpQuery, if previousPost.Some? then previousPost else old(g.post))
      ensures temporaryPostId.None?
      ensures old(temporaryPostId).Some? ==> g.posts == old(g.posts) - {old(temporaryPostId).value}
      ensures old(temporaryPostId).None? ==> g.posts == old(g.posts)
    {
      if previousQuery.Some? {
        g.wpQuery := previousQuery;
      }
      if previousTheQuery.Some? {
        g.wpTheQuery := previousTheQuery;
      }
      if previousPost.Some? {
        g.post := previousPost;
      }
      if g.wpQuery.Some? && g.wpQuery.value.current.Some? {
        g.post := g.wpQuery.value.current;
      }
      if temporaryPostId.Some? {
        g.posts := g.posts - {temporaryPostId.value};
        temporaryPostId := None;
      }
    }
  }
}
