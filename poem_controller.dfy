/** The poem handlers: the poem list, one poem with its comments, the poem
    and comment forms, likes, and creating, updating and deleting poems and
    comments. Each handler receives what its model calls give (see
    Persistence) and reports the calls it made, in order. */
module PoemController {
  import opened Wrappers
  import opened JsValue
  import opened Http
  import opened Persistence
  import opened Routes

  datatype Handler =
    | GetPoemList | GetNewPoemForm | CreatePoem | GetEditPoemForm | CreateLike
    | GetEditCommentForm | UpdateComment | DeleteComment | GetPoem | CreateComment
    | UpdatePoem | DeletePoem

  /** `registerRoutes`, in registration order: one entry per handler, and
      the likes route is the only one registered without its leading slash. */
  function RegisterRoutes(): (table: seq<Route<Handler>>)
    ensures forall i, j :: 0 <= i < j < |table| ==> table[i].handler != table[j].handler
    ensures forall i :: 0 <= i < |table| ==>
              |table[i].pattern| >= 1 && (table[i].pattern[0] == "" <==> table[i].handler != CreateLike)
  {
    [ Route(GET, ["", "poems"], GetPoemList),
      Route(GET, ["", "poems", "new"], GetNewPoemForm),
      Route(POST, ["", "poems"], CreatePoem),
      Route(GET, ["", "poems", ":id", "edit"], GetEditPoemForm),
      Route(POST, ["poems", ":id", "likes"], CreateLike),
      Route(GET, ["", "poems", ":id", "comments", ":id", "edit"], GetEditCommentForm),
      Route(PUT, ["", "poems", ":id", "comments", ":id"], UpdateComment),
      Route(DELETE, ["", "poems", ":id", "comments", ":id"], DeleteComment),
      Route(GET, ["", "poems", ":id"], GetPoem),
      Route(POST, ["", "poems", ":id", "comments"], CreateComment),
      Route(PUT, ["", "poems", ":id"], UpdatePoem),
      Route(DELETE, ["", "poems", ":id"], DeletePoem) ]
  }

  /** The static GET routes come before every GET route with an `:id`. */
  lemma StaticGetRoutesFirst()
    ensures var table := RegisterRoutes();
            forall i, j ::
              (0 <= i < |table| && 0 <= j < |table| &&
               table[i].verb == GET && !HasParam(table[i].pattern) &&
               table[j].verb == GET && HasParam(table[j].pattern)) ==> i < j
  {
    var table := RegisterRoutes();
    assert !HasParam(table[0].pattern) && !HasParam(table[1].pattern);
    assert IsParam(table[3].pattern[2]) && IsParam(table[5].pattern[2]) && IsParam(table[8].pattern[2]);
  }

  /** So `/poems/new` reaches the new-poem form, not `getPoem` with id "new". */
  lemma NewPoemFormReachable()
    ensures Dispatch(RegisterRoutes(), GET, ["", "poems", "new"]) == Some(GetNewPoemForm)
  {
    var table := RegisterRoutes();
    var path := ["", "poems", "new"];
    assert !Selects(table[0], GET, path);
    assert Selects(table[1], GET, path) by {
      assert forall i :: 0 <= i < 3 ==> SegmentMatches(table[1].pattern[i], path[i]);
    }
  }

  /** Had `/poems/:id` been registered first, `/poems/new` would have reached
      `getPoem`: selection depends on registration order. */
  lemma ReorderedTableShadowsNewPoemForm()
    ensures Dispatch([Route(GET, ["", "poems", ":id"], GetPoem), Route(GET, ["", "poems", "new"], GetNewPoemForm)],
                     GET, ["", "poems", "new"]) == Some(GetPoem)
  {
    var path := ["", "poems", "new"];
    var pattern := ["", "poems", ":id"];
    assert Matches(pattern, path) by {
      assert IsParam(pattern[2]) && !IsParam(pattern[0]) && !IsParam(pattern[1]);
    }
  }

  /** No request path ever reaches `createLike`: its pattern lacks the
      leading slash every request path has. */
  lemma LikesRouteUnreachable(m: Method, path: seq<string>)
    requires IsRequestPath(path)
    ensures Dispatch(RegisterRoutes(), m, path) != Some(CreateLike)
  {
    var table := RegisterRoutes();
    var likes := table[4].pattern;
    assert likes == ["poems", ":id", "likes"] && likes[0][0] == 'p';
    NoLeadingSlashNeverMatches(likes, path);
    var k := FirstMatch(table, m, path);
    if k.Some? {
      var i := k.value;
      assert i != 4;
      if i < 4 {
        assert i == 0 || i == 1 || i == 2 || i == 3;
      } else {
        assert i == 5 || i == 6 || i == 7 || i == 8 || i == 9 || i == 10 || i == 11;
      }
    }
  }

  predicate IsLoggedIn(s: Session)
    reads s
  {
    Truthy(s.Get("isLoggedIn"))
  }

  /** The reply of every login gate. */
  function LoginRedirect(): Envelope {
    Redirect(Unauthorized, "Unauthorized", "/login")
  }

  function ErrorView(status: StatusCode, message: string): Envelope {
    View(status, message, "ErrorFormView")
  }

  /** `/poems/${id}`. */
  function PoemPath(id: Value): string {
    "/poems/" + Text(id)
  }

  /** The comment rule: the session user owns it, or `isAdmin === true`. */
  predicate MayModifyComment(userId: Value, owner: Value, isAdmin: Value) {
    StrictEquals(userId, owner) || StrictEquals(isAdmin, Bool(true))
  }

  /** The poem rule of `updatePoem` and `deletePoem`: refuse only when the
      session user is not the owner and `isAdmin === false`. */
  predicate PoemRefused(userId: Value, owner: Value, isAdmin: Value) {
    !StrictEquals(userId, owner) && StrictEquals(isAdmin, Bool(false))
  }

  /** `modifyPoem` in `getPoem`: the owner, or a truthy `isAdmin`. */
  predicate ShowsModify(userId: Value, owner: Value, isAdmin: Value) {
    StrictEquals(userId, owner) || Truthy(isAdmin)
  }

  /** Once login has set `isAdmin` to a boolean, the three owner-or-admin
      rules agree; without it the poem rule lets anyone through. */
  lemma OwnerRulesAgreeAfterLogin(userId: Value, owner: Value, isAdmin: Value)
    ensures isAdmin.Bool? ==>
              (PoemRefused(userId, owner, isAdmin) <==> !MayModifyComment(userId, owner, isAdmin)) &&
              (ShowsModify(userId, owner, isAdmin) <==> MayModifyComment(userId, owner, isAdmin))
    ensures isAdmin == Undefined ==> !PoemRefused(userId, owner, isAdmin)
  {
  }

  /** The title and description of the body, each only when truthy. */
  function Changes(req: Request): (c: Props)
    ensures c.Keys <= {"title", "description"}
    ensures "title" in c <==> Truthy(req.Body("title"))
    ensures "description" in c <==> Truthy(req.Body("description"))
    ensures forall k :: k in c ==> c[k] == req.Body(k)
  {
    var t: Props := if Truthy(req.Body("title")) then map["title" := req.Body("title")] else map[];
    if Truthy(req.Body("description")) then t["description" := req.Body("description")] else t
  }

  /** A comment as `getPoem` lists it: its props with `canModify` set to
      whether the session user wrote it. */
  function CommentView(c: Props, userId: Value): (r: Props)
    ensures r.Keys == c.Keys + {"canModify"}
    ensures r["canModify"] == Bool(StrictEquals(Prop(c, "userId"), userId))
    ensures forall k :: k in c && k != "canModify" ==> r[k] == c[k]
  {
    c["canModify" := Bool(StrictEquals(Prop(c, "userId"), userId))]
  }

  /** Every comment flagged, in their order. */
  function MarkedComments(comments: seq<Props>, userId: Value): (r: seq<Props>)
    ensures |r| == |comments|
    ensures forall i :: 0 <= i < |r| ==> r[i] == CommentView(comments[i], userId)
  {
    seq(|comments|, i requires 0 <= i < |comments| => CommentView(comments[i], userId))
  }

  /** The `comments.map(...)` of `getPoem`: flags every comment, keeping
      their order and number. */
  method MarkModifiable(comments: seq<Props>, userId: Value) returns (list: seq<Props>)
    ensures list == MarkedComments(comments, userId)
  {
    list := [];
    for i := 0 to |comments|
      invariant |list| == i
      invariant forall k :: 0 <= k < i ==> list[k] == CommentView(comments[k], userId)
    {
      var c := comments[i];
      if StrictEquals(Prop(c, "userId"), userId) {
        c := c["canModify" := Bool(true)];
      } else {
        c := c["canModify" := Bool(false)];
      }
      list := list + [c];
    }
  }

  /** `getNewPoemForm`: the form for a logged-in user, the login form otherwise. */
  method GetNewPoemFormHandler(req: Request, res: Response)
    requires res.sent == None
    modifies res
    ensures res.cookies == old(res.cookies)
    ensures !IsLoggedIn(req.session) ==> res.sent == Some(LoginRedirect())
    ensures IsLoggedIn(req.session) ==>
              res.sent == Some(Envelope(OK, "New poem form", None, Some("NewFormView"),
                                        Some(Obj(map["title" := Str("New Poem"),
                                                     "isLoggedIn" := req.session.Get("isLoggedIn")]))))
  {
    var loggedIn := req.session.Get("isLoggedIn");
    if !Truthy(loggedIn) {
      res.Send(LoginRedirect());
      return;
    }
    res.Send(Envelope(OK, "New poem form", None, Some("NewFormView"),
                      Some(Obj(map["title" := Str("New Poem"), "isLoggedIn" := loggedIn]))));
  }

  /** `getEditPoemForm`: only for a logged-in user who owns the poem (no
      admin exception). `poem` is what `Poem.read` gives. */
  method GetEditPoemFormHandler(req: Request, res: Response, poem: Fetch<Option<Props>>)
    returns (calls: seq<DbCall>)
    requires res.sent == None
    modifies res
    ensures res.cookies == old(res.cookies)
    ensures !IsLoggedIn(req.session) ==> res.sent == Some(LoginRedirect()) && calls == []
    ensures IsLoggedIn(req.session) ==> calls == [PoemRead(req.id)]
    ensures IsLoggedIn(req.session) && poem.Threw? ==>
              res.sent == Some(ErrorView(InternalServerError, "Error while getting poem list: " + poem.error))
    ensures var userId := req.session.Get("userId");
            IsLoggedIn(req.session) && poem.Got? ==>
              && (!StrictEquals(userId, OptProp(poem.value, "userId")) ==>
                    res.sent == Some(ErrorView(Unauthorized, "Unauthorized")))
              && (StrictEquals(userId, OptProp(poem.value, "userId")) ==>
                    res.sent == Some(Envelope(OK, "Edit poem form", None, Some("EditPoemFormView"),
                                              Some(Obj(map["poem" := OptProps(poem.value), "title" := Str("Edit Poem"),
                                                           "isLoggedIn" := req.session.Get("isLoggedIn"),
                                                           "userId" := userId])))))
  {
    var userId := req.session.Get("userId");
    var loggedIn := req.session.Get("isLoggedIn");
    calls := [];
    if !Truthy(loggedIn) {
      res.Send(LoginRedirect());
      return;
    }
    calls := calls + [PoemRead(req.id)];
    if poem.Threw? {
      res.Send(ErrorView(InternalServerError, "Error while getting poem list: " + poem.error));
      return;
    }
    if !StrictEquals(userId, OptProp(poem.value, "userId")) {
      res.Send(ErrorView(Unauthorized, "Unauthorized"));
      return;
    }
    res.Send(Envelope(OK, "Edit poem form", None, Some("EditPoemFormView"),
                      Some(Obj(map["poem" := OptProps(poem.value), "title" := Str("Edit Poem"),
                                   "isLoggedIn" := loggedIn, "userId" := userId]))));
  }

  /** `getPoemList`: with a truthy `sortBy`, the category of that name is
      looked up and `readAll` is given its id, so the list is filtered by the
      named category when one exists, and an unknown name (an undefined id)
      lists every poem. Without `sortBy`, every poem. */
  method GetPoemListHandler(req: Request, res: Response, category: Fetch<Option<Props>>, poems: Fetch<seq<Props>>)
    returns (calls: seq<DbCall>)
    requires res.sent == None
    modifies res
    ensures res.cookies == old(res.cookies)
    ensures var sort := req.Search("sortBy");
            && (Truthy(sort) && category.Threw? ==>
                  && calls == [CategoryByName(sort)]
                  && res.sent == Some(ErrorView(InternalServerError, "Error while getting category: " + category.error)))
            && (Truthy(sort) && category.Got? ==>
                  calls == [CategoryByName(sort), PoemReadAll(OptProp(category.value, "id"))])
            && (Truthy(sort) && category.Got? && poems.Threw? ==>
                  res.sent == Some(ErrorView(InternalServerError, "Error while getting category: " + poems.error)))
            && (!Truthy(sort) ==> calls == [PoemReadAll(Undefined)])
            && (!Truthy(sort) && poems.Threw? ==>
                  res.sent == Some(ErrorView(InternalServerError, "Error while getting poem list: " + poems.error)))
            && ((!Truthy(sort) || category.Got?) && poems.Got? ==>
                  res.sent == Some(Envelope(OK, "Poem list retrieved", None, Some("ListView"),
                                            Some(Obj(map["title" := Str("Poem List"), "poems" := Arr(Objects(poems.value)),
                                                         "isLoggedIn" := req.session.Get("isLoggedIn"),
                                                         "userId" := req.session.Get("userId")])))))
  {
    var userId := req.session.Get("userId");
    var sort := req.Search("sortBy");
    var loggedIn := req.session.Get("isLoggedIn");
    var rows: seq<Props>;
    if Truthy(sort) {
      calls := [CategoryByName(sort)];
      if category.Threw? {
        res.Send(ErrorView(InternalServerError, "Error while getting category: " + category.error));
        return;
      }
      calls := calls + [PoemReadAll(OptProp(category.value, "id"))];
      if poems.Threw? {
        res.Send(ErrorView(InternalServerError, "Error while getting category: " + poems.error));
        return;
      }
      rows := poems.value;
    } else {
      calls := [PoemReadAll(Undefined)];
      if poems.Threw? {
        res.Send(ErrorView(InternalServerError, "Error while getting poem list: " + poems.error));
        return;
      }
      rows := poems.value;
    }
    res.Send(Envelope(OK, "Poem list retrieved", None, Some("ListView"),
                      Some(Obj(map["title" := Str("Poem List"), "poems" := Arr(Objects(rows)),
                                   "isLoggedIn" := loggedIn, "userId" := userId]))));
  }

  /** The payload `getPoem` shows for poem `p`. */
  function ShowPayload(p: Props, list: seq<Props>, category: Option<Props>, s: Session,
                       modifyPoem: bool, showLike: bool): (r: Value)
    reads s
    ensures r.Obj?
    ensures r.fields.Keys == {"poem", "title", "isLoggedIn", "comments", "category", "userId", "modifyPoem", "showLike"}
    ensures r.fields["poem"] == Obj(p) && r.fields["comments"] == Arr(Objects(list))
    ensures r.fields["category"] == OptProps(category)
    ensures r.fields["modifyPoem"] == Bool(modifyPoem) && r.fields["showLike"] == Bool(showLike)
  {
    Obj(map["poem" := Obj(p), "title" := Prop(p, "title"), "isLoggedIn" := s.Get("isLoggedIn"),
            "comments" := Arr(Objects(list)), "category" := OptProps(category),
            "userId" := s.Get("userId"), "modifyPoem" := Bool(modifyPoem), "showLike" := Bool(showLike)])
  }

  /** The reply `getPoem` sends once a poem has been found. */
  function ShowReply(p: Props, list: seq<Props>, category: Option<Props>, s: Session,
                     modifyPoem: bool, showLike: bool): Envelope
    reads s
  {
    Envelope(OK, "Poem retrieved", None, Some("ShowView"), Some(ShowPayload(p, list, category, s, modifyPoem, showLike)))
  }

  /** The reads `getPoem` makes once poem `p` was found: its category, then,
      unless that failed, whether the session user likes it. */
  function ShowCalls(s: Session, p: Props, category: Fetch<Option<Props>>): (r: seq<DbCall>)
    reads s
    ensures |r| >= 1 && r[0] == CategoryRead(Or(Prop(p, "categoryId"), Num(1)))
    ensures |r| == 2 <==> category.Got?
    ensures category.Got? ==> r[1] == LikeRead(s.Get("userId"), Or(Prop(p, "id"), Num(1)))
  {
    [CategoryRead(Or(Prop(p, "categoryId"), Num(1)))] +
    (if category.Got? then [LikeRead(s.Get("userId"), Or(Prop(p, "id"), Num(1)))] else [])
  }

  /** The reply `getPoem` sends once poem `p` was found. */
  function ShowOutcome(s: Session, p: Props, list: seq<Props>,
                       category: Fetch<Option<Props>>, like: Fetch<Option<Props>>): Envelope
    reads s
  {
    match category
    case Threw(e) => ErrorView(InternalServerError, "Error while getting category: " + e)
    case Got(c) =>
      match like
      case Threw(e) => ErrorView(InternalServerError, "Error while getting like: " + e)
      case Got(l) => ShowReply(p, list, c, s, ShowsModify(s.Get("userId"), Prop(p, "userId"), s.Get("isAdmin")), l.None?)
  }

  /** A shown poem is an OK `ShowView` whose payload carries the poem, the
      flagged comments in their order, the category, `modifyPoem` for the
      owner or a truthy `isAdmin`, and `showLike` exactly when no like exists. */
  lemma ShowOutcomeShows(s: Session, p: Props, list: seq<Props>, c: Option<Props>, l: Option<Props>)
    ensures var e := ShowOutcome(s, p, list, Got(c), Got(l));
            && e.statusCode == OK && e.template == Some("ShowView") && e.payload.Some?
            && var f := e.payload.value.fields;
            && f["poem"] == Obj(p)
            && f["comments"] == Arr(Objects(list))
            && f["category"] == OptProps(c)
            && (f["modifyPoem"] == Bool(true) <==> ShowsModify(s.Get("userId"), Prop(p, "userId"), s.Get("isAdmin")))
            && (f["showLike"] == Bool(true) <==> l.None?)
  {
  }

  /** The part of `getPoem` after poem `p` was found. */
  method ShowPoem(req: Request, res: Response, p: Props, list: seq<Props>,
                  category: Fetch<Option<Props>>, like: Fetch<Option<Props>>)
    returns (calls: seq<DbCall>)
    requires res.sent == None
    modifies res
    ensures res.cookies == old(res.cookies)
    ensures calls == ShowCalls(req.session, p, category)
    ensures res.sent == Some(ShowOutcome(req.session, p, list, category, like))
  {
    var userId := req.session.Get("userId");
    var isAdmin := req.session.Get("isAdmin");
    calls := [CategoryRead(Or(Prop(p, "categoryId"), Num(1)))];
    if category.Threw? {
      res.Send(ErrorView(InternalServerError, "Error while getting category: " + category.error));
      return;
    }
    var modifyPoem := StrictEquals(userId, Prop(p, "userId")) || Truthy(isAdmin);
    calls := calls + [LikeRead(userId, Or(Prop(p, "id"), Num(1)))];
    if like.Threw? {
      res.Send(ErrorView(InternalServerError, "Error while getting like: " + like.error));
      return;
    }
    var showLikeButton := like.value.None?;
    res.Send(ShowReply(p, list, category.value, req.session, modifyPoem, showLikeButton));
  }

  /** `getPoem`. A non-numeric id is refused before any read; a missing poem
      is NotFound; otherwise the poem is shown with its comments (each
      flagged `canModify` when the session user wrote it, in their order),
      `modifyPoem` when the session user owns it or is admin, and
      `showLike` when the user has not liked it. */
  method GetPoemHandler(req: Request, res: Response, poem: Fetch<Option<Props>>, comments: Fetch<seq<Props>>,
                        category: Fetch<Option<Props>>, like: Fetch<Option<Props>>)
    returns (calls: seq<DbCall>)
    requires res.sent == None
    modifies res
    ensures res.cookies == old(res.cookies)
    ensures req.id.NaN? ==> res.sent == Some(ErrorView(BadRequest, "Invalid ID")) && calls == []
    ensures req.id.Num? && poem.Threw? ==>
              && res.sent == Some(ErrorView(InternalServerError, "Error while getting poem list: " + poem.error))
              && calls == [PoemRead(req.id)]
    ensures req.id.Num? && poem.Got? && comments.Threw? ==>
              && res.sent == Some(ErrorView(InternalServerError, "Error while getting comment list: " + comments.error))
              && calls == [PoemRead(req.id), CommentReadAll(req.id)]
    ensures req.id.Num? && poem == Got(None) && comments.Got? ==>
              && res.sent == Some(ErrorView(NotFound, "Not found"))
              && calls == [PoemRead(req.id), CommentReadAll(req.id)]
    ensures req.id.Num? && poem.Got? && poem.value.Some? && comments.Got? ==>
              var p := poem.value.value;
              && calls == [PoemRead(req.id), CommentReadAll(req.id)] + ShowCalls(req.session, p, category)
              && res.sent == Some(ShowOutcome(req.session, p, MarkedComments(comments.value, req.session.Get("userId")),
                                              category, like))
  {
    var id := req.id;
    var userId := req.session.Get("userId");
    calls := [];
    if id.NaN? {
      res.Send(ErrorView(BadRequest, "Invalid ID"));
      return;
    }
    calls := [PoemRead(id)];
    if poem.Threw? {
      res.Send(ErrorView(InternalServerError, "Error while getting poem list: " + poem.error));
      return;
    }
    calls := [PoemRead(id), CommentReadAll(id)];
    if comments.Threw? {
      res.Send(ErrorView(InternalServerError, "Error while getting comment list: " + comments.error));
      return;
    }
    var commentList := MarkModifiable(comments.value, userId);
    if poem.value.None? {
      res.Send(ErrorView(NotFound, "Not found"));
      return;
    }
    var tail := ShowPoem(req, res, poem.value.value, commentList, category, like);
    calls := [PoemRead(id), CommentReadAll(id)] + tail;
  }

  /** `createLike`: no login gate; the like is created for whatever
      `userId` the session holds. */
  method CreateLikeHandler(req: Request, res: Response, created: Fetch<Props>)
    returns (calls: seq<DbCall>)
    requires res.sent == None
    modifies res
    ensures res.cookies == old(res.cookies)
    ensures calls == [LikeCreate(map["userId" := req.session.Get("userId"), "poemId" := req.id])]
    ensures created.Threw? ==>
              res.sent == Some(Envelope(InternalServerError, "Error liking", None, Some("ErrorFormView"), Some(Obj(map[]))))
    ensures created.Got? ==>
              res.sent == Some(Envelope(Created, "Like created successfully!", Some(PoemPath(req.id)), None,
                                        Some(Obj(map["isLoggedIn" := req.session.Get("isLoggedIn")]))))
  {
    var poemId := req.id;
    var likeProps: Props := map["userId" := req.session.Get("userId"), "poemId" := req.id];
    calls := [LikeCreate(likeProps)];
    if created.Threw? {
      res.Send(Envelope(InternalServerError, "Error liking", None, Some("ErrorFormView"), Some(Obj(map[]))));
      return;
    }
    var loggedIn := req.session.Get("isLoggedIn");
    res.Send(Envelope(Created, "Like created successfully!", Some(PoemPath(poemId)), None,
                      Some(Obj(map["isLoggedIn" := loggedIn]))));
  }

  /** The props `createComment` inserts (the timestamp is left out). */
  function NewComment(req: Request): Props
    reads req.session
  {
    map["title" := req.Body("title"), "description" := req.Body("description"),
        "userId" := req.session.Get("userId"), "poemId" := req.id]
  }

  /** `createComment`: a logged-in user's comment is inserted and the
      client sent to the poem the stored comment belongs to. */
  method CreateCommentHandler(req: Request, res: Response, created: Fetch<Props>)
    returns (calls: seq<DbCall>)
    requires res.sent == None
    modifies res
    ensures res.cookies == old(res.cookies)
    ensures !IsLoggedIn(req.session) ==> res.sent == Some(LoginRedirect()) && calls == []
    ensures IsLoggedIn(req.session) ==> calls == [CommentCreate(NewComment(req))]
    ensures IsLoggedIn(req.session) && created.Threw? ==>
              res.sent == Some(Envelope(BadRequest, "Request body must include title and description.", None,
                                        Some("ErrorFormView"), Some(Obj(map[]))))
    ensures IsLoggedIn(req.session) && created.Got? ==>
              res.sent == Some(Envelope(Created, "Comment created successfully!",
                                        Some(PoemPath(Prop(created.value, "poemId"))), None,
                                        Some(Obj(map["comment" := Obj(created.value),
                                                     "isLoggedIn" := req.session.Get("isLoggedIn")]))))
  {
    var commentProps := NewComment(req);
    var loggedIn := req.session.Get("isLoggedIn");
    calls := [];
    if !Truthy(loggedIn) {
      res.Send(LoginRedirect());
      return;
    }
    calls := [CommentCreate(commentProps)];
    if created.Threw? {
      res.Send(Envelope(BadRequest, "Request body must include title and description.", None,
                        Some("ErrorFormView"), Some(Obj(map[]))));
      return;
    }
    var comment := created.value;
    res.Send(Envelope(Created, "Comment created successfully!", Some(PoemPath(Prop(comment, "poemId"))), None,
                      Some(Obj(map["comment" := Obj(comment), "isLoggedIn" := loggedIn]))));
  }

  /** `getEditCommentForm`: for a logged-in user who wrote the comment or
      whose `isAdmin` is exactly true; anyone else goes to the login form. */
  method GetEditCommentFormHandler(req: Request, res: Response, comment: Fetch<Option<Props>>)
    returns (calls: seq<DbCall>)
    requires res.sent == None
    modifies res
    ensures res.cookies == old(res.cookies)
    ensures !IsLoggedIn(req.session) ==> res.sent == Some(LoginRedirect()) && calls == []
    ensures IsLoggedIn(req.session) ==> calls == [CommentRead(req.commentId)]
    ensures IsLoggedIn(req.session) && comment.Threw? ==>
              res.sent == Some(ErrorView(InternalServerError, "Error while getting comment: " + comment.error))
    ensures var userId, isAdmin := req.session.Get("userId"), req.session.Get("isAdmin");
            IsLoggedIn(req.session) && comment.Got? ==>
              && (!MayModifyComment(userId, OptProp(comment.value, "userId"), isAdmin) ==>
                    res.sent == Some(LoginRedirect()))
              && (MayModifyComment(userId, OptProp(comment.value, "userId"), isAdmin) ==>
                    res.sent == Some(Envelope(OK, "Edit Comment form", None, Some("EditCommentForm"),
                                              Some(Obj(map["comment" := OptProps(comment.value),
                                                           "title" := Str("Edit Comment"),
                                                           "isLoggedIn" := req.session.Get("isLoggedIn"),
                                                           "userId" := userId])))))
  {
    var id := req.commentId;
    var userId := req.session.Get("userId");
    var isAdmin := req.session.Get("isAdmin");
    var loggedIn := req.session.Get("isLoggedIn");
    calls := [];
    if !Truthy(loggedIn) {
      res.Send(LoginRedirect());
      return;
    }
    calls := [CommentRead(id)];
    if comment.Threw? {
      res.Send(ErrorView(InternalServerError, "Error while getting comment: " + comment.error));
      return;
    }
    if StrictEquals(userId, OptProp(comment.value, "userId")) || StrictEquals(isAdmin, Bool(true)) {
      res.Send(Envelope(OK, "Edit Comment form", None, Some("EditCommentForm"),
                        Some(Obj(map["comment" := OptProps(comment.value), "title" := Str("Edit Comment"),
                                     "isLoggedIn" := loggedIn, "userId" := userId]))));
    } else {
      res.Send(LoginRedirect());
    }
  }

  /** `this.props = {...this.props, ...row}` after an update. */
  function Merged(props: Props, row: Props): (r: Props)
    ensures r.Keys == props.Keys + row.Keys
    ensures forall k :: k in row ==> r[k] == row[k]
    ensures forall k :: k in props && k !in row ==> r[k] == props[k]
  {
    props + row
  }

  /** `updateComment` (no login gate). The writer of the comment, or a
      session whose `isAdmin` is exactly true, gets the truthy title and
      description applied and is sent to `/poems/<comment id>`; anyone else
      is refused with nothing written. */
  method UpdateCommentHandler(req: Request, res: Response, comment: Fetch<Option<Props>>, updated: Fetch<Props>)
    returns (calls: seq<DbCall>)
    requires res.sent == None
    modifies res
    ensures res.cookies == old(res.cookies)
    ensures |calls| >= 1 && calls[0] == CommentRead(req.commentId)
    ensures comment.Threw? ==>
              calls == [CommentRead(req.commentId)] &&
              res.sent == Some(ErrorView(InternalServerError, "error updating comment"))
    ensures var userId, isAdmin := req.session.Get("userId"), req.session.Get("isAdmin");
            comment.Got? ==>
              var owner := OptProp(comment.value, "userId");
              && (!MayModifyComment(userId, owner, isAdmin) ==>
                    calls == [CommentRead(req.commentId)] &&
                    res.sent == Some(ErrorView(Unauthorized, "Must be owner or admin")))
              && (MayModifyComment(userId, owner, isAdmin) && comment.value.None? ==>
                    calls == [CommentRead(req.commentId)] &&
                    res.sent == Some(Envelope(OK, "Comment updated successfully!", Some(PoemPath(req.commentId)), None,
                                              Some(Obj(map["comment" := Undefined])))))
              && (MayModifyComment(userId, owner, isAdmin) && comment.value.Some? ==>
                    var c := comment.value.value;
                    && calls == [CommentRead(req.commentId), CommentUpdate(Prop(c, "id"), Changes(req))]
                    && (updated.Threw? ==> res.sent == Some(ErrorView(InternalServerError, "error updating comment")))
                    && (updated.Got? ==>
                          res.sent == Some(Envelope(OK, "Comment updated successfully!", Some(PoemPath(req.commentId)),
                                                    None, Some(Obj(map["comment" := Obj(Merged(c, updated.value))]))))))
  {
    var id := req.commentId;
    var commentProps := Changes(req);
    var userId := req.session.Get("userId");
    var isAdmin := req.session.Get("isAdmin");
    calls := [CommentRead(id)];
    if comment.Threw? {
      res.Send(ErrorView(InternalServerError, "error updating comment"));
      return;
    }
    var current := comment.value;
    if StrictEquals(userId, OptProp(current, "userId")) || StrictEquals(isAdmin, Bool(true)) {
      if current.Some? {
        calls := [CommentRead(id), CommentUpdate(Prop(current.value, "id"), commentProps)];
        if updated.Threw? {
          res.Send(ErrorView(InternalServerError, "error updating comment"));
          return;
        }
        current := Some(Merged(current.value, updated.value));
      }
      res.Send(Envelope(OK, "Comment updated successfully!", Some(PoemPath(id)), None,
                        Some(Obj(map["comment" := OptProps(current)]))));
    } else {
      res.Send(ErrorView(Unauthorized, "Must be owner or admin"));
    }
  }

  /** `deleteComment` (no login gate). A failed read answers OK with an
      error view. The writer, or a session whose `isAdmin` is exactly true,
      deletes the comment and is sent to `/poems/<comment id>`; anyone else
      is refused with nothing deleted. */
  method DeleteCommentHandler(req: Request, res: Response, comment: Fetch<Option<Props>>, deleted: Fetch<bool>)
    returns (calls: seq<DbCall>)
    requires res.sent == None
    modifies res
    ensures res.cookies == old(res.cookies)
    ensures |calls| >= 1 && calls[0] == CommentRead(req.commentId)
    ensures comment.Threw? ==>
              calls == [CommentRead(req.commentId)] &&
              res.sent == Some(ErrorView(OK, "error deleting comment"))
    ensures var userId, isAdmin := req.session.Get("userId"), req.session.Get("isAdmin");
            comment.Got? ==>
              var owner := OptProp(comment.value, "userId");
              && (!MayModifyComment(userId, owner, isAdmin) ==>
                    calls == [CommentRead(req.commentId)] &&
                    res.sent == Some(ErrorView(Unauthorized, "Must be owner or admin")))
              && (MayModifyComment(userId, owner, isAdmin) && comment.value.Some? ==>
                    calls == [CommentRead(req.commentId), CommentDelete(Prop(comment.value.value, "id"))])
              && (MayModifyComment(userId, owner, isAdmin) && comment.value.None? ==>
                    calls == [CommentRead(req.commentId)])
              && (MayModifyComment(userId, owner, isAdmin) && comment.value.Some? && deleted.Threw? ==>
                    res.sent == Some(ErrorView(InternalServerError, "error deleting comment")))
              && (MayModifyComment(userId, owner, isAdmin) && (comment.value.None? || deleted.Got?) ==>
                    res.sent == Some(Envelope(OK, "Comment deleted successfully!", Some(PoemPath(req.commentId)), None,
                                              Some(Obj(map["comment" := OptProps(comment.value)])))))
  {
    var id := req.commentId;
    var userId := req.session.Get("userId");
    var isAdmin := req.session.Get("isAdmin");
    calls := [CommentRead(id)];
    if comment.Threw? {
      res.Send(ErrorView(OK, "error deleting comment"));
      return;
    }
    if StrictEquals(userId, OptProp(comment.value, "userId")) || StrictEquals(isAdmin, Bool(true)) {
      if comment.value.Some? {
        calls := [CommentRead(id), CommentDelete(Prop(comment.value.value, "id"))];
        if deleted.Threw? {
          res.Send(ErrorView(InternalServerError, "error deleting comment"));
          return;
        }
      }
      res.Send(Envelope(OK, "Comment deleted successfully!", Some(PoemPath(id)), None,
                        Some(Obj(map["comment" := OptProps(comment.value)]))));
    } else {
      res.Send(ErrorView(Unauthorized, "Must be owner or admin"));
    }
  }

  /** The props `createPoem` inserts (the timestamp is left out). */
  function NewPoem(req: Request, category: Option<Props>): Props
    reads req.session
  {
    map["title" := req.Body("title"), "description" := req.Body("description"),
        "categoryId" := OptProp(category, "id"), "userId" := req.session.Get("userId")]
  }

  /** `createPoem`. The category named in the body is looked up first, even
      for a caller who is not logged in; `category` is what that lookup
      gives. Only a logged-in user's poem is inserted. */
  method CreatePoemHandler(req: Request, res: Response, category: Option<Props>, created: Fetch<Props>)
    returns (calls: seq<DbCall>)
    requires res.sent == None
    modifies res
    ensures res.cookies == old(res.cookies)
    ensures |calls| >= 1 && calls[0] == CategoryByName(req.Body("category"))
    ensures !IsLoggedIn(req.session) ==>
              res.sent == Some(LoginRedirect()) && calls == [CategoryByName(req.Body("category"))]
    ensures IsLoggedIn(req.session) ==>
              calls == [CategoryByName(req.Body("category")), PoemCreate(NewPoem(req, category))]
    ensures IsLoggedIn(req.session) && created.Threw? ==>
              res.sent == Some(Envelope(BadRequest, "Request body must include title and description.", None,
                                        Some("ErrorFormView"), Some(Obj(map[]))))
    ensures IsLoggedIn(req.session) && created.Got? ==>
              res.sent == Some(Envelope(Created, "Poem created successfully!", Some(PoemPath(Prop(created.value, "id"))),
                                        None, Some(Obj(map["poem" := Obj(created.value),
                                                           "isLoggedIn" := req.session.Get("isLoggedIn")]))))
  {
    calls := [CategoryByName(req.Body("category"))];
    var poemProps := NewPoem(req, category);
    var loggedIn := req.session.Get("isLoggedIn");
    if !Truthy(loggedIn) {
      res.Send(LoginRedirect());
      return;
    }
    calls := [CategoryByName(req.Body("category")), PoemCreate(poemProps)];
    if created.Threw? {
      res.Send(Envelope(BadRequest, "Request body must include title and description.", None,
                        Some("ErrorFormView"), Some(Obj(map[]))));
      return;
    }
    var poem := created.value;
    res.Send(Envelope(Created, "Poem created successfully!", Some(PoemPath(Prop(poem, "id"))), None,
                      Some(Obj(map["poem" := Obj(poem), "isLoggedIn" := loggedIn]))));
  }

  /** `updatePoem` (no login gate). The truthy title and description are
      written BEFORE the ownership check, which refuses only when the
      session user is not the owner and `isAdmin === false`. */
  method UpdatePoemHandler(req: Request, res: Response, poem: Fetch<Option<Props>>, updated: Fetch<Props>)
    returns (calls: seq<DbCall>)
    requires res.sent == None
    modifies res
    ensures res.cookies == old(res.cookies)
    ensures |calls| >= 1 && calls[0] == PoemRead(req.id)
    ensures poem.Threw? ==>
              calls == [PoemRead(req.id)] && res.sent == Some(ErrorView(InternalServerError, "error updating poem"))
    ensures poem.Got? && poem.value.Some? ==>
              calls == [PoemRead(req.id), PoemUpdate(Prop(poem.value.value, "id"), Changes(req))]
    ensures poem.Got? && poem.value.Some? && updated.Threw? ==>
              res.sent == Some(ErrorView(InternalServerError, "error updating poem"))
    ensures poem == Got(None) ==> calls == [PoemRead(req.id)]
    ensures var userId, isAdmin := req.session.Get("userId"), req.session.Get("isAdmin");
            poem.Got? && (poem.value.None? || updated.Got?) ==>
              var after := if poem.value.Some? then Some(Merged(poem.value.value, updated.value)) else None;
              && (PoemRefused(userId, OptProp(after, "userId"), isAdmin) ==>
                    res.sent == Some(ErrorView(Unauthorized, "Must be owner or admin")))
              && (!PoemRefused(userId, OptProp(after, "userId"), isAdmin) ==>
                    res.sent == Some(Envelope(OK, "Poem updated successfully!", Some(PoemPath(req.id)), None,
                                              Some(Obj(map["poem" := OptProps(after)])))))
  {
    var id := req.id;
    var poemProps := Changes(req);
    var userId := req.session.Get("userId");
    var isAdmin := req.session.Get("isAdmin");
    calls := [PoemRead(id)];
    if poem.Threw? {
      res.Send(ErrorView(InternalServerError, "error updating poem"));
      return;
    }
    var current := poem.value;
    if current.Some? {
      calls := [PoemRead(id), PoemUpdate(Prop(current.value, "id"), poemProps)];
      if updated.Threw? {
        res.Send(ErrorView(InternalServerError, "error updating poem"));
        return;
      }
      current := Some(Merged(current.value, updated.value));
    }
    if !StrictEquals(userId, OptProp(current, "userId")) && StrictEquals(isAdmin, Bool(false)) {
      res.Send(ErrorView(Unauthorized, "Must be owner or admin"));
      return;
    }
    res.Send(Envelope(OK, "Poem updated successfully!", Some(PoemPath(id)), None,
                      Some(Obj(map["poem" := OptProps(current)]))));
  }

  /** `deletePoem` (no login gate). Refused, before anything is deleted,
      only when the session user is not the owner and `isAdmin === false`;
      otherwise the poem is deleted and the client sent to the poem list. */
  method DeletePoemHandler(req: Request, res: Response, poem: Fetch<Option<Props>>, deleted: Fetch<bool>)
    returns (calls: seq<DbCall>)
    requires res.sent == None
    modifies res
    ensures res.cookies == old(res.cookies)
    ensures |calls| >= 1 && calls[0] == PoemRead(req.id)
    ensures poem.Threw? ==>
              calls == [PoemRead(req.id)] && res.sent == Some(ErrorView(InternalServerError, "error deleting poem"))
    ensures var userId, isAdmin := req.session.Get("userId"), req.session.Get("isAdmin");
            poem.Got? ==>
              var owner := OptProp(poem.value, "userId");
              && (PoemRefused(userId, owner, isAdmin) ==>
                    calls == [PoemRead(req.id)] && res.sent == Some(ErrorView(Unauthorized, "Must be owner or admin")))
              && (!PoemRefused(userId, owner, isAdmin) && poem.value.Some? ==>
                    calls == [PoemRead(req.id), PoemDelete(Prop(poem.value.value, "id"))])
              && (!PoemRefused(userId, owner, isAdmin) && poem.value.None? ==> calls == [PoemRead(req.id)])
              && (!PoemRefused(userId, owner, isAdmin) && poem.value.Some? && deleted.Threw? ==>
                    res.sent == Some(ErrorView(InternalServerError, "error deleting poem")))
              && (!PoemRefused(userId, owner, isAdmin) && (poem.value.None? || deleted.Got?) ==>
                    res.sent == Some(Envelope(OK, "Poem deleted successfully!", Some("/poems"), None,
                                              Some(Obj(map["poem" := OptProps(poem.value)])))))
  {
    var userId := req.session.Get("userId");
    var isAdmin := req.session.Get("isAdmin");
    calls := [PoemRead(req.id)];
    if poem.Threw? {
      res.Send(ErrorView(InternalServerError, "error deleting poem"));
      return;
    }
    if !StrictEquals(userId, OptProp(poem.value, "userId")) && StrictEquals(isAdmin, Bool(false)) {
      res.Send(ErrorView(Unauthorized, "Must be owner or admin"));
      return;
    }
    if poem.value.Some? {
      calls := [PoemRead(req.id), PoemDelete(Prop(poem.value.value, "id"))];
      if deleted.Threw? {
        res.Send(ErrorView(InternalServerError, "error deleting poem"));
        return;
      }
    }
    res.Send(Envelope(OK, "Poem deleted successfully!", Some("/poems"), None,
                      Some(Obj(map["poem" := OptProps(poem.value)]))));
  }
}
