/** Client code replaying the repository's unit tests for responses, plus
    illustrations of request tracking, notifications and maps: everything
    asserted here follows from the model's contracts and definitions. */
module Scenarios {
  import opened Ruby
  import opened Common
  import opened Maps

  /** test/test_response.rb, test_reponse_creation. */
  method ResponseCreation() {
    var request := new Request(3, Str("foo"));
    var resp := new Response(33, Str("ok"), request);
    assert resp.id == 33 && resp.status == "ok" && resp.request == request;
    resp := new Response(43, Sym("processing"), request);
    assert resp.status == "processing";
  }

  /** test/test_response.rb, test_parameters. */
  method ResponseParameters() {
    var request := new Request(3, Str("foo"));
    var resp := new Response(2, Str("finished"), request);
    assert DigitChar(3) == '3';
    assert ToS(Int(33)) == NatToS(3) + [DigitChar(3)] == "33";
    resp.Set(Str("foo"), Int(33));
    resp.Set(Sym("bar"), Str("98"));
    assert resp.parameters == map["foo" := "33"]["bar" := "98"];
    assert |resp.parameters| == 2;
    assert resp.Get(Sym("foo")) == resp.Get(Str("foo")) == Success("33");
    assert resp.Get(Sym("bar")) == resp.Get(Str("bar")) == Success("98");
  }

  /** test/test_response.rb, test_optional_parameters. */
  method OptionalParameters() {
    var request := new Request(3, Str("foo"));
    var res := new Response(2, Str("ok"), request);
    assert res.Get(Str("bar")) == Failure(UnknownParameter("bar", null, res, null));
    res.AddDefaultValue(Str("bar"), Str("default stuff"));
    assert res.Get(Str("bar")) == Success("default stuff");
    res.Set(Str("bar"), Str("other stuff"));
    assert res.Get(Str("bar")) == Success("other stuff");
    res.Set(Str("baz"), Str("foobar"));
    assert res.Get(Str("baz")) == Success("foobar");
  }

  /** test/test_response.rb, test_equality. */
  method ResponseEquality() {
    var request := new Request(3, Str("foo"));
    var resp1 := new Response(1, Str("ok"), request);
    var resp2 := new Response(1, Sym("ok"), request);
    var resp3 := new Response(2, Str("ok"), null);
    var resp4 := new Response(2, Sym("ok"), null);
    var other := new Request(3, Str("bar"));
    var resp5 := new Response(1, Str("ok"), other);
    assert resp1.Eql(ResponseObj(resp2)) == resp2.Eql(ResponseObj(resp1)) == Success(true);
    assert resp3.Eql(ResponseObj(resp4)) == resp4.Eql(ResponseObj(resp3)) == Success(true);
    assert resp1.Eql(ResponseObj(resp1)) == Success(true);
    assert resp1.Eql(ResponseObj(resp3)) == resp3.Eql(ResponseObj(resp1)) == Success(false);
    assert resp1.Eql(ResponseObj(resp4)) == resp4.Eql(ResponseObj(resp1)) == Success(false);
    assert resp4.Eql(ResponseObj(resp5)) == resp5.Eql(ResponseObj(resp4)) == Success(false);
    assert resp1.Eql(ResponseObj(resp5)) == resp5.Eql(ResponseObj(resp1)) == Success(false);
  }

  /** test/test_response.rb, test_mapping. */
  method ResponseMapping() {
    var request := new Request(3, Str("foo"));
    var resp1 := new Response(2, Str("ok"), request);
    var resp2 := new Response(3, Str("error"), null);
    assert resp1.Mapped() && !resp2.Mapped();
  }

  /** The life of one request as the response documentation of request.rb
      describes it (an illustration, not a replay of a repository test): a
      fresh request runs, the first ok response is recorded and retires it,
      and later responses are no longer recorded. */
  method RequestTracking() {
    var req := new Request(3, Str("foo"));
    assert req.Running();
    var processing := new Response(1, Str("processing"), req);
    req.ReceiveResponse(processing);
    assert req.Running() && req.responses == [processing];
    var ok := new Response(2, Str("ok"), req);
    req.ReceiveResponse(ok);
    assert !req.Running() && req.responses == [processing, ok];
    var late := new Response(3, Str("finished"), req);
    req.ReceiveResponse(late);
    assert req.responses == [processing, ok];
  }

  /** A notification has no default table until one is assigned. */
  method NotificationDefaults() {
    var note := new Notification(4, Str("project-created"));
    assert DigitChar(3) == '3';
    assert ToS(Int(33)) == NatToS(3) + [DigitChar(3)] == "33";
    note.Set(Sym("abc"), Int(33));
    assert note.Get(Str("abc")) == Success("33");
    assert note.Get(Str("foo")) == Failure(Core(NoMethodError("has_key?")));
    var err := note.AddDefaultValue(Str("foo"));
    assert err.Some?;
    note.SetDefaultParameterValues(map[]);
    err := note.AddDefaultValue(Str("foo"));
    assert err == None && note.Get(Str("foo")) == Success("");
    assert note.Get(Str("bar")) == Failure(UnknownParameter("bar", null, null, note));
  }

  /** A root map and a child map in a fresh registry. */
  method MapHierarchy() {
    var registry := new Registry();
    var free := registry.NextFreeId();
    assert !registry.IdInUse(1);
    assert free == 1;
    var root := registry.NewMap(1, "World", "outdoor", 2, 2, 1);
    assert root.Success? && registry.maps[0].id == 1 && registry.IdInUse(1);
    assert forall k :: 0 <= k < |registry.maps| ==> registry.maps[k].id == 1;
    free := registry.NextFreeId();
    assert registry.IdInUse(1) && !registry.IdInUse(2);
    assert free == 2;
    assert registry.FromId(1).value == root.value && registry.ParentTakesChildren(1);
    assert root.value in registry.maps && root.value.childrenIds == Some([]);
    var child := registry.NewMap(2, "", "indoor", 1, 1, 1, 1);
    assert child.Success? && child.value.parent == root.value;
    assert root.value.childrenIds.value == [2];
    assert root.value.childrenIds == Some([2]);
    var ids := child.value.ParentIds();
    assert ids == [1];
    assert child.value.Name() == IntToS(2);
    var taken := registry.NewMap(2, "again", "indoor", 1, 1, 1);
    assert taken == Failure(ArgumentError("The ID " + IntToS(2) + " is already in use!"));
    var err := child.value.Set(0, 0, 0, Tile(3, 7));
    assert err == None && child.value.Get(0, 0, 0) == Success(Some(Tile(3, 7)));
  }

  /** A negative width leaves a half-built map 1 registered; a child of it
      then fails on the half-built map's missing child list, after being
      registered once itself. */
  method HalfBuiltParent() {
    var registry := new Registry();
    var broken := registry.NewMap(1, "x", "m", -1, 0, 0);
    assert broken == Failure(ArgumentError("negative array size"));
    assert |registry.maps| == 1 && registry.maps[0].childrenIds.None?;
    assert registry.FromId(1).value == registry.maps[0] && !registry.ParentTakesChildren(1);
    var child := registry.NewMap(2, "y", "m", 1, 1, 1, 1);
    assert child == Failure(NoMethodError("<<"));
    assert |registry.maps| == 2 && registry.maps[1].id == 2 && registry.maps[1].parent == registry.maps[0];
    assert registry.IdInUse(2);
  }
}
