/** The persistence calls the poem controller makes (Poem, Comment, Like and
    Category models). Their SQL is not modelled: each call's outcome is an
    oracle value the handler receives, and the handler reports the calls it
    actually made, in order. */
module Persistence {
  import opened JsValue

  /** What an awaited model call produced: a value, or a thrown error whose
      text is `${error}`. A read that finds no row gives `Got(None)`. */
  datatype Fetch<+T> = Got(value: T) | Threw(error: string)

  /** One model call, with the arguments the handler passed. */
  datatype DbCall =
    | PoemRead(id: Value)
    | PoemReadAll(categoryId: Value)
    | PoemReadAllOfUser(userId: Value)
    | PoemCreate(props: Props)
    | PoemUpdate(poemId: Value, changes: Props)
    | PoemDelete(poemId: Value)
    | CommentRead(id: Value)
    | CommentReadAll(poemId: Value)
    | CommentCreate(props: Props)
    | CommentUpdate(commentId: Value, changes: Props)
    | CommentDelete(commentId: Value)
    | CategoryRead(id: Value)
    | CategoryByName(name: Value)
    | LikeRead(userId: Value, poemId: Value)
    | LikeReadAllOfUser(userId: Value)
    | LikeCreate(props: Props)
}
