/** Pushing dynamic configuration to the router: fetch, compare, post, once per node group. */
module DynamicConfig {
  import opened Basics
  import opened JsonInclusion

  /** Text of a request or response body, as far as parsing is concerned. */
  datatype Document = Blank | Valid(json: Json) | Malformed

  /** Unmarshalling into a map: objects give their fields, `null` gives none, the rest is an error. */
  function ParseFields(d: Document): Option<Fields> {
    match d
    case Valid(Obj(fields)) => Some(fields)
    case Valid(Null) => Some(map[])
    case _ => None
  }

  /** Inclusion of two documents; `None` is a parse error. */
  function IncludesJson(current: Document, desired: Document): Option<bool> {
    var c, d := ParseFields(current), ParseFields(desired);
    if c.None? || d.None? then None else Some(Includes(c.value, d.value))
  }

  const NODE_TYPES: seq<string> := ["middlemanagers", "coordinators"]

  /** Answers to the calls made for one node group; `after` is what the server holds once it has
      received a POST, accepted or not. */
  datatype Replies = Replies(svcFails: bool, authFails: bool, getFails: bool, getStatus: int,
                             postFails: bool, postStatus: int, after: Document)

  datatype Server = Server(configs: map<string, Document>, posts: seq<(string, Document)>)

  function Held(s: Server, nodeType: string): Document {
    if nodeType in s.configs then s.configs[nodeType] else Blank
  }

  /** An empty response body counts as an empty object. */
  function OrEmptyObject(d: Document): Document { if d.Blank? then Valid(Obj(map[])) else d }

  function AfterPost(s: Server, nodeType: string, desired: Document, r: Replies): Server {
    Server(s.configs[nodeType := r.after], s.posts + [(nodeType, desired)])
  }

  /** One group: the server afterwards and whether the pass goes on. */
  function UpdateOne(nodeType: string, wanted: map<string, Document>, r: Replies, s: Server): (Server, bool) {
    if nodeType !in wanted then (s, true)
    else if r.svcFails || r.authFails || r.getFails || r.getStatus != 200 then (s, false)
    else match IncludesJson(OrEmptyObject(Held(s, nodeType)), wanted[nodeType])
         case None => (s, false)
         case Some(true) => (s, true)
         case Some(false) => (AfterPost(s, nodeType, wanted[nodeType], r), !r.postFails && r.postStatus == 200)
  }

  function Update(types: seq<string>, wanted: map<string, Document>, replies: string -> Replies, s: Server)
        : (Server, bool)
  {
    if types == [] then (s, true) else
      var (s1, ok) := UpdateOne(types[0], wanted, replies(types[0]), s);
      if !ok then (s1, false) else Update(types[1..], wanted, replies, s1)
  }

  class Router {
    var configs: map<string, Document>
    var posts: seq<(string, Document)>

    function Now(): Server
      reads this
    {
      Server(configs, posts)
    }

    /** `wanted` holds the groups that have a dynamic configuration. */
    method UpdateDruidDynamicConfigs(wanted: map<string, Document>, replies: string -> Replies) returns (ok: bool)
      modifies this
      ensures (Now(), ok) == Update(NODE_TYPES, wanted, replies, old(Now()))
      ensures old(posts) <= posts && forall p :: p in posts[|old(posts)|..] ==> p.0 in wanted && p.1 == wanted[p.0]
    {
      ghost var whole := Update(NODE_TYPES, wanted, replies, Now());
      assert NODE_TYPES[0..] == NODE_TYPES;
      for i := 0 to |NODE_TYPES|
        invariant Update(NODE_TYPES[i..], wanted, replies, Now()) == whole
        invariant old(posts) <= posts && forall p :: p in posts[|old(posts)|..] ==> p.0 in wanted && p.1 == wanted[p.0]
      {
        var nodeType := NODE_TYPES[i];
        assert NODE_TYPES[i..][0] == nodeType && NODE_TYPES[i..][1..] == NODE_TYPES[i + 1..];
        if nodeType !in wanted { continue; }
        var r := replies(nodeType);
        if r.svcFails { return false; }
        if r.authFails { return false; }
        if r.getFails { return false; }
        if r.getStatus != 200 { return false; }
        var body := if nodeType in configs then configs[nodeType] else Blank;
        var current := if body.Blank? then Valid(Obj(map[])) else body;
        var equal := IncludesJson(current, wanted[nodeType]);
        if equal.None? { return false; }
        if equal.value { continue; }
        configs := configs[nodeType := r.after];
        posts := posts + [(nodeType, wanted[nodeType])];
        if r.postFails { return false; }
        if r.postStatus != 200 { return false; }
      }
      return true;
    }
  }

  /** The server keeps what it accepts: after an accepted POST its configuration includes the posted one. */
  ghost predicate KeepsAccepted(wanted: map<string, Document>, replies: string -> Replies) {
    forall t :: t in wanted && !replies(t).postFails && replies(t).postStatus == 200 ==>
      IncludesJson(OrEmptyObject(replies(t).after), wanted[t]) == Some(true)
  }

  /** The server's configuration of every listed group includes the wanted one. */
  ghost predicate UpToDate(types: seq<string>, wanted: map<string, Document>, s: Server) {
    forall t :: t in types && t in wanted ==> IncludesJson(OrEmptyObject(Held(s, t)), wanted[t]) == Some(true)
  }

  lemma {:induction false} PassBringsUpToDate(types: seq<string>, wanted: map<string, Document>,
        replies: string -> Replies, s: Server)
    requires NoRepeats(types) && KeepsAccepted(wanted, replies)
    ensures var (s', ok) := Update(types, wanted, replies, s);
            && (ok ==> UpToDate(types, wanted, s'))
            && (forall t :: t !in types ==> Held(s', t) == Held(s, t))
  {
    if types != [] {
      var t := types[0];
      var (s1, ok) := UpdateOne(t, wanted, replies(t), s);
      PassBringsUpToDate(types[1..], wanted, replies, s1);
      assert forall x :: x in types ==> x == t || x in types[1..];
      assert t !in types[1..];
      hide IncludesJson;
    }
  }

  /** On an up-to-date server no pass sends a POST, even one that meets errors. */
  lemma {:induction false} UpToDateSendsNothing(types: seq<string>, wanted: map<string, Document>,
        replies: string -> Replies, s: Server)
    requires UpToDate(types, wanted, s)
    ensures Update(types, wanted, replies, s).0 == s
  {
    if types != [] {
      assert types[0] in types;
      assert forall x :: x in types[1..] ==> x in types;
      UpToDateSendsNothing(types[1..], wanted, replies, s);
    }
  }

  /** The loop is quiescent: after a pass without errors the next one posts for neither group. */
  lemma QuietAfterCleanPass(wanted: map<string, Document>, first: string -> Replies, second: string -> Replies,
        s: Server)
    requires KeepsAccepted(wanted, first)
    requires Update(NODE_TYPES, wanted, first, s).1
    ensures var s1 := Update(NODE_TYPES, wanted, first, s).0; Update(NODE_TYPES, wanted, second, s1).0 == s1
  {
    var types := NODE_TYPES;
    assert NoRepeats(types);
    PassBringsUpToDate(types, wanted, first, s);
    UpToDateSendsNothing(types, wanted, second, Update(types, wanted, first, s).0);
  }

  /** A group is posted exactly when it is configured, its calls before the POST succeed and the server
      does not include its configuration. */
  lemma PostedExactlyWhenMissing(nodeType: string, wanted: map<string, Document>, r: Replies, s: Server)
    ensures UpdateOne(nodeType, wanted, r, s).0.posts != s.posts <==>
            && nodeType in wanted && !r.svcFails && !r.authFails && !r.getFails && r.getStatus == 200
            && ParseFields(wanted[nodeType]).Some? && ParseFields(OrEmptyObject(Held(s, nodeType))).Some?
            && !Covers(Obj(ParseFields(OrEmptyObject(Held(s, nodeType))).value),
               Obj(ParseFields(wanted[nodeType]).value))
  {
    if nodeType in wanted {
      var c, d := ParseFields(OrEmptyObject(Held(s, nodeType))), ParseFields(wanted[nodeType]);
      if c.Some? && d.Some? { IncludesIsCovers(c.value, d.value); }
    }
  }

  // A whole pass, from the documents and the answers

  /** The text is a JSON object, or `null`, which stands for an empty one. */
  predicate Readable(d: Document) { d.Valid? && (d.json.Obj? || d.json.Null?) }

  function AsObject(d: Document): Json
    requires Readable(d)
  {
    if d.json.Null? then Obj(map[]) else d.json
  }

  /** What the server answers for a group; an empty body stands for an empty object too. */
  function Answered(s: Server, t: string): Document {
    if t in s.configs && !s.configs[t].Blank? then s.configs[t] else Valid(Obj(map[]))
  }

  /** The group is configured, and everything up to the comparison succeeds. */
  predicate Compared(t: string, wanted: map<string, Document>, r: Replies, s: Server) {
    && t in wanted && !r.svcFails && !r.authFails && !r.getFails && r.getStatus == 200
    && Readable(Answered(s, t)) && Readable(wanted[t])
  }

  /** Some path of the group's configuration is not met by what the server holds. */
  ghost predicate Missing(t: string, wanted: map<string, Document>, r: Replies, s: Server) {
    Compared(t, wanted, r, s) && !Covers(AsObject(Answered(s, t)), AsObject(wanted[t]))
  }

  /** The group is configured, and either the comparison is not reached or the POST is not accepted. */
  ghost predicate GroupFails(t: string, wanted: map<string, Document>, r: Replies, s: Server) {
    && t in wanted
    && (Compared(t, wanted, r, s) ==> Missing(t, wanted, r, s) && (r.postFails || r.postStatus != 200))
  }

  lemma GroupExactly(t: string, wanted: map<string, Document>, r: Replies, s: Server)
    ensures UpdateOne(t, wanted, r, s) ==
            (if Missing(t, wanted, r, s) then AfterPost(s, t, wanted[t], r) else s, !GroupFails(t, wanted, r, s))
  {
    if Compared(t, wanted, r, s) {
      var c, d := ParseFields(Answered(s, t)), ParseFields(wanted[t]);
      assert c.Some? && d.Some? && AsObject(Answered(s, t)) == Obj(c.value) && AsObject(wanted[t]) == Obj(d.value);
      IncludesIsCovers(c.value, d.value);
    }
    hide Includes, Covers;
  }

  /** The middle managers come first. Their configuration is posted exactly if it is missing; the
      coordinators' exactly if it is missing and the middle managers' part did not fail. The pass succeeds
      exactly if neither part fails, and the server changes by what it makes of the posts. */
  lemma PassPostsExactly(wanted: map<string, Document>, replies: string -> Replies, s: Server)
    ensures var mm, co := "middlemanagers", "coordinators";
            var first := Missing(mm, wanted, replies(mm), s);
            var goesOn := !GroupFails(mm, wanted, replies(mm), s);
            var second := goesOn && Missing(co, wanted, replies(co), s);
            var (s', ok) := Update(NODE_TYPES, wanted, replies, s);
            && s'.posts == s.posts + (if first then [(mm, wanted[mm])] else [])
                           + (if second then [(co, wanted[co])] else [])
            && Held(s', mm) == (if first then replies(mm).after else Held(s, mm))
            && Held(s', co) == (if second then replies(co).after else Held(s, co))
            && (forall t :: t != mm && t != co ==> Held(s', t) == Held(s, t))
            && (ok <==> goesOn && !GroupFails(co, wanted, replies(co), s))
  {
    var mm, co := "middlemanagers", "coordinators";
    assert mm[0] != co[0];
    var types, last, none: seq<string> := NODE_TYPES, [co], [];
    assert types == [mm, co] && types[1..] == last && last[1..] == none;
    var s1 := UpdateOne(mm, wanted, replies(mm), s).0;
    GroupExactly(mm, wanted, replies(mm), s);
    GroupExactly(co, wanted, replies(co), s1);
    assert Answered(s1, co) == Answered(s, co);
    hide UpdateOne, Covers, Readable;
    assert Update(none, wanted, replies, UpdateOne(co, wanted, replies(co), s1).0) ==
           (UpdateOne(co, wanted, replies(co), s1).0, true);
  }
}
