/** Requests of the participant context APIs, which address admin routes. */
module Participants {
  import opened Wrappers
  import opened Paths
  import opened Context
  import opened Client

  /** `ParticipantContextApi::create`: POST to the admin route `participants`. */
  function Create(c: ClientConfig, participant: Entity): (r: Request)
    ensures r.verb == POST && r.reply == JsonReply && r.headers == []
    ensures r.url == AdminUrl(c) + "/" + "participants"
    ensures r.body == JsonBody(WithContext(PlainContext(c), Document(participant)))
  {
    AdminRoute1(c, "participants");
    PostRequest(PathForTarget(c, Admin, ["participants"]), JsonBody(ContextFor(c, Document(participant))))
  }

  /** `ParticipantContextConfigApi::save`: PUT to the admin route
      `participants/{participant context id}/config`, ignoring the reply. */
  function Save(c: ClientConfig, participantContextId: string, cfg: Entity): (r: Request)
    ensures r.verb == PUT && r.reply == EmptyReply && r.headers == []
    ensures r.url == AdminUrl(c) + "/" + "participants" + "/" + participantContextId + "/" + "config"
    ensures r.body == JsonBody(WithContext(PlainContext(c), Document(cfg)))
  {
    AdminRoute3(c, "participants", participantContextId, "config");
    PutRequest(PathForTarget(c, Admin, ["participants", participantContextId, "config"]), JsonBody(ContextFor(c, Document(cfg))))
  }

  /** Once a participant context is set, admin routes do not depend on which
      one (the context id in `save` is the argument's, not the client's), and
      the URL's segments are the management URL's, then `v4alpha`, then the
      route's. */
  lemma AdminRoutesIgnoreContext(c: ClientConfig, pc: string, pc': string, participant: Entity, id: string, cfg: Entity)
    requires Segment(id)
    ensures Create(c.(participantContext := Some(pc)), participant).url
         == Create(c.(participantContext := Some(pc')), participant).url
    ensures Save(c.(participantContext := Some(pc)), id, cfg).url
         == Save(c.(participantContext := Some(pc')), id, cfg).url
    ensures Split(Save(c.(participantContext := Some(pc)), id, cfg).url)
         == Split(c.managementUrl) + ["v4alpha", "participants", id, "config"]
  {
    PathSegments(c.(participantContext := Some(pc)), Admin, ["participants", id, "config"]);
  }

  /** Without a participant context the admin routes sit under the configured
      version instead, so setting a context always moves them. */
  lemma AdminRoutesWithoutContext(c: ClientConfig, pc: string, participant: Entity, id: string, cfg: Entity)
    requires Segment(id)
    ensures Split(Save(c.(participantContext := None), id, cfg).url)
         == Split(c.managementUrl) + [c.version.AsStr(), "participants", id, "config"]
    ensures Create(c.(participantContext := None), participant).url
         != Create(c.(participantContext := Some(pc)), participant).url
  {
    var with := c.(participantContext := Some(pc));
    var without := c.(participantContext := None);
    PathSegments(without, Admin, ["participants", id, "config"]);
    PathSegments(with, Admin, ["participants"]);
    PathSegments(without, Admin, ["participants"]);
    VersionSegmentsDistinct(c.version, c.version);
    var n := |Split(c.managementUrl)|;
    assert Split(Create(without, participant).url)[n] != Split(Create(with, participant).url)[n];
  }
}
