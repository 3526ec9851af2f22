/**
  The container tag resolver, seen from outside: asked for an entity and
  whether high-cardinality tags are wanted, it answers with a list of tags
  and possibly an error. Its internals are not part of this model; any
  function of this type stands for it.
 */
module Tagger {
  import opened Wrappers

  datatype TagReply = TagReply(tags: seq<string>, err: Option<string>)

  type Tagger = (string, bool) -> TagReply
}
