/** include/acp/content.hpp: ContentBlock and its constituents. */
module Content {
  import opened Universe

  function Role(): Schema {
    SEnum(Name("assistant", Name("user", NoName)))
  }

  function Annotations(): Schema {
    SRec(Field("audience", Optional, SList(Role()),
         Field("lastModified", Optional, SStr,
         Field("priority", Optional, SReal,
         Field("_meta", Meta, SJson, End)))))
  }

  function TextResource(): Schema {
    SRec(Field("uri", Required, SStr,
         Field("text", Required, SStr,
         Field("mimeType", Optional, SStr,
         Field("_meta", Meta, SJson, End)))))
  }

  function BlobResource(): Schema {
    SRec(Field("uri", Required, SStr,
         Field("blob", Required, SStr,
         Field("mimeType", Optional, SStr,
         Field("_meta", Meta, SJson, End)))))
  }

  function EmbeddedResource(): Schema {
    SEmbedded(TextResource(), BlobResource())
  }

  function TextContent(): Schema {
    SRec(Field("text", Required, SStr,
         Field("annotations", Optional, Annotations(),
         Field("_meta", Meta, SJson, End))))
  }

  function ImageContent(): Schema {
    SRec(Field("data", Required, SStr,
         Field("mimeType", Required, SStr,
         Field("uri", Optional, SStr,
         Field("annotations", Optional, Annotations(),
         Field("_meta", Meta, SJson, End))))))
  }

  function AudioContent(): Schema {
    SRec(Field("data", Required, SStr,
         Field("mimeType", Required, SStr,
         Field("annotations", Optional, Annotations(),
         Field("_meta", Meta, SJson, End)))))
  }

  function ResourceLinkContent(): Schema {
    SRec(Field("uri", Required, SStr,
         Field("name", Required, SStr,
         Field("mimeType", Optional, SStr,
         Field("title", Optional, SStr,
         Field("description", Optional, SStr,
         Field("size", Optional, SInt,
         Field("annotations", Optional, Annotations(),
         Field("_meta", Meta, SJson, End)))))))))
  }

  function ResourceContent(): Schema {
    SRec(Field("resource", Required, EmbeddedResource(),
         Field("annotations", Optional, Annotations(),
         Field("_meta", Meta, SJson, End))))
  }

  function ContentBlock(): Schema {
    STagged("type",
      Arm("text", TextContent(),
      Arm("image", ImageContent(),
      Arm("audio", AudioContent(),
      Arm("resource_link", ResourceLinkContent(),
      Arm("resource", ResourceContent(), NoArm))))))
  }

  lemma AnnotationsOk()
    ensures WellFormed(Annotations())
  {
    assert WellFormed(Role());
  }

  lemma EmbeddedOk()
    ensures WellFormed(EmbeddedResource())
  {
    assert WellFormed(TextResource()) && WellFormed(BlobResource());
  }

  lemma MediaOk()
    ensures WellFormed(TextContent()) && ObjectWithout("type", TextContent())
    ensures WellFormed(ImageContent()) && ObjectWithout("type", ImageContent())
    ensures WellFormed(AudioContent()) && ObjectWithout("type", AudioContent())
  {
    hide Annotations;
    AnnotationsOk();
  }

  lemma ResourcesOk()
    ensures WellFormed(ResourceLinkContent()) && ObjectWithout("type", ResourceLinkContent())
    ensures WellFormed(ResourceContent()) && ObjectWithout("type", ResourceContent())
  {
    hide Annotations, EmbeddedResource;
    AnnotationsOk();
    EmbeddedOk();
  }

  lemma ContentBlockOk()
    ensures WellFormed(ContentBlock())
  {
    hide TextContent, ImageContent, AudioContent, ResourceLinkContent, ResourceContent;
    MediaOk();
    ResourcesOk();
  }

  lemma ContentBlockRigid()
    ensures Rigid(ContentBlock())
  {
    hide Annotations;
    assert Rigid(Annotations()) by { AnnotationsRigid(); }
  }

  lemma AnnotationsRigid()
    ensures Rigid(Annotations())
  {
  }
}
