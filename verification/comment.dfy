/**
  Comments: the schema only. Content and author are required; the parent comment
  and the dream are optional references that nothing checks.
 */
module Comments {
  import opened Store

  datatype Comment = Comment(content: Option<string>, author: Option<Id>, parent: Option<Id>, dream: Option<Id>)

  predicate Acceptable(c: Comment) {
    Filled(c.content) && c.author.Some?
  }

  /** The ValidationError paths and messages of a comment document. */
  function Validate(c: Comment): (e: Errors)
    ensures e == map[] <==> Acceptable(c)
    ensures e.Keys <= {"content", "author"}
    ensures "content" in e <==> !Filled(c.content)
    ensures "content" in e ==> e["content"] == Message("Content is required")
    ensures "author" in e <==> c.author.None?
    ensures "author" in e ==> e["author"] == Message("Author is required")
  {
    Require(Filled(c.content), "content", "Content is required")
      + Require(c.author.Some?, "author", "Author is required")
  }

  /** Validation never looks at `parent` or `dream`: a top-level comment (no parent),
      a comment on no dream, or a reply to a comment that is not stored, of another
      dream, all validate exactly like the same content and author would. */
  lemma ReferencesUnchecked(c: Comment, parent: Option<Id>, dream: Option<Id>, comments: map<Id, Comment>)
    ensures Validate(c.(parent := parent, dream := dream)) == Validate(c)
    ensures Acceptable(c) && parent.Some? && parent.value !in comments ==>
              Validate(c.(parent := parent)) == map[]
  {
  }
}
