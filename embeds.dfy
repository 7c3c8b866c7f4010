/** createBookmarkEmbed: the rich embed the bot sends as the private copy of a
    bookmarked message. */
module Embeds {
  import opened Types
  import Text

  /** An attachment of the original message. */
  datatype Attachment = Attachment(contentType: string, url: string, filename: string)

  /** What s.ChannelMessage returns, as far as the bot reads it. The timestamp arrives
      already formatted as RFC 3339 and the avatar URL already computed. */
  datatype Message = Message(
    content: string,
    authorId: Id,
    authorName: string,
    authorAvatarUrl: string,
    timestamp: string,
    attachments: seq<Attachment>)

  /** An embed field; the bot never sets Inline. */
  datatype Field = Field(name: string, value: string)

  datatype Embed = Embed(
    title: string,
    description: string,
    timestamp: string,
    color: int,
    authorName: string,
    authorIconUrl: string,
    fields: seq<Field>,
    footer: string,
    image: Option<string>)

  const EmbedColor: int := 0x3498db
  const FooterText: string := "React with " + DeleteEmoji + " to remove this bookmark"

  predicate HasPrefix(s: string, prefix: string) {
    |prefix| <= |s| && s[..|prefix|] == prefix
  }

  predicate IsImage(a: Attachment) {
    HasPrefix(a.contentType, "image/")
  }

  /** The position of the first image attachment, if any. */
  function FirstImage(atts: seq<Attachment>): (r: Option<nat>)
    ensures r.Some? ==> r.value < |atts| && IsImage(atts[r.value])
    ensures r.Some? ==> forall j :: 0 <= j < r.value ==> !IsImage(atts[j])
    ensures r.None? <==> forall j :: 0 <= j < |atts| ==> !IsImage(atts[j])
  {
    if |atts| == 0 then None
    else if IsImage(atts[0]) then Some(0)
    else match FirstImage(atts[1..])
      case None => None
      case Some(i) => Some(i + 1)
  }

  /** The preview image URL: the URL of the first image attachment. */
  function PreviewUrl(atts: seq<Attachment>): Option<string> {
    match FirstImage(atts)
    case None => None
    case Some(i) => Some(atts[i].url)
  }

  function SourceField(link: string): Field {
    Field("Source", "[Jump to message](" + link + ")")
  }

  /** The field for the attachment at 1-based position n. */
  function AttachmentField(n: nat, a: Attachment): Field {
    Field("Attachment " + Text.Decimal(n), "[" + a.filename + "](" + a.url + ")")
  }

  /** The attachment loop's `continue`: every attachment whose URL is the preview's. */
  predicate Skipped(preview: Option<string>, a: Attachment) {
    preview.Some? && preview.value == a.url
  }

  /** The fields the attachment loop appends after the Source field. */
  function AttachmentFields(atts: seq<Attachment>, preview: Option<string>): seq<Field> {
    if |atts| == 0 then []
    else
      var last := atts[|atts| - 1];
      AttachmentFields(atts[..|atts| - 1], preview)
        + (if Skipped(preview, last) then [] else [AttachmentField(|atts|, last)])
  }

  /** How many attachments the loop does not skip. */
  function KeptCount(atts: seq<Attachment>, preview: Option<string>): nat {
    if |atts| == 0 then 0
    else KeptCount(atts[..|atts| - 1], preview) + (if Skipped(preview, atts[|atts| - 1]) then 0 else 1)
  }

  /** The embed createBookmarkEmbed returns for msg, posted in guildName, at link. */
  function BookmarkEmbed(msg: Message, guildName: string, link: string): Embed {
    var preview := PreviewUrl(msg.attachments);
    Embed(
      "Bookmark from " + guildName,
      msg.content,
      msg.timestamp,
      EmbedColor,
      msg.authorName,
      msg.authorAvatarUrl,
      [SourceField(link)] + AttachmentFields(msg.attachments, preview),
      FooterText,
      preview)
  }

  /** createBookmarkEmbed: a search loop that stops at the first image, then an
      indexed loop that appends one field per attachment not shown as the preview. */
  method CreateBookmarkEmbed(msg: Message, guildName: string, link: string) returns (e: Embed)
    ensures e == BookmarkEmbed(msg, guildName, link)
  {
    var atts := msg.attachments;
    var fields := [SourceField(link)];
    var image: Option<string> := None;

    var i := 0;
    while i < |atts|
      invariant 0 <= i <= |atts|
      invariant forall j :: 0 <= j < i ==> !IsImage(atts[j])
    {
      if IsImage(atts[i]) {
        image := Some(atts[i].url);
        break;
      }
      i := i + 1;
    }
    assert image == PreviewUrl(atts);

    i := 0;
    while i < |atts|
      invariant 0 <= i <= |atts|
      invariant fields == [SourceField(link)] + AttachmentFields(atts[..i], image)
    {
      var a := atts[i];
      assert atts[..i + 1][..i] == atts[..i];
      if !(image.Some? && image.value == a.url) {
        fields := fields + [AttachmentField(i + 1, a)];
      }
      i := i + 1;
    }
    assert atts[..|atts|] == atts;

    e := Embed(
      "Bookmark from " + guildName,
      msg.content,
      msg.timestamp,
      EmbedColor,
      msg.authorName,
      msg.authorAvatarUrl,
      fields,
      FooterText,
      image);
  }

  /** The preview is the first image attachment's URL, and there is none exactly
      when no attachment is an image. */
  lemma PreviewIsFirstImage(atts: seq<Attachment>)
    ensures PreviewUrl(atts).None? <==> forall j :: 0 <= j < |atts| ==> !IsImage(atts[j])
    ensures PreviewUrl(atts).Some? ==>
      exists i :: 0 <= i < |atts| && IsImage(atts[i]) && atts[i].url == PreviewUrl(atts).value
        && forall j :: 0 <= j < i ==> !IsImage(atts[j])
  {
    if FirstImage(atts).Some? {
      var i := FirstImage(atts).value;
      assert IsImage(atts[i]) && atts[i].url == PreviewUrl(atts).value;
    }
  }

  lemma {:induction false} AttachmentFieldsLength(atts: seq<Attachment>, preview: Option<string>)
    ensures |AttachmentFields(atts, preview)| == KeptCount(atts, preview)
    ensures preview.None? ==> KeptCount(atts, preview) == |atts|
  {
    if |atts| > 0 {
      AttachmentFieldsLength(atts[..|atts| - 1], preview);
    }
  }

  lemma {:induction false} KeptBeforeIsFewer(atts: seq<Attachment>, preview: Option<string>, i: nat)
    requires i < |atts| && !Skipped(preview, atts[i])
    ensures KeptCount(atts[..i], preview) < KeptCount(atts, preview)
  {
    var n := |atts| - 1;
    if i < n {
      var init := atts[..n];
      assert init[..i] == atts[..i] && init[i] == atts[i];
      KeptBeforeIsFewer(init, preview, i);
    }
  }

  lemma {:induction false} AttachmentFieldAt(atts: seq<Attachment>, preview: Option<string>, i: nat)
    requires i < |atts| && !Skipped(preview, atts[i])
    ensures KeptCount(atts[..i], preview) < |AttachmentFields(atts, preview)|
    ensures AttachmentFields(atts, preview)[KeptCount(atts[..i], preview)] == AttachmentField(i + 1, atts[i])
  {
    var n := |atts| - 1;
    var init := atts[..n];
    KeptBeforeIsFewer(atts, preview, i);
    AttachmentFieldsLength(atts, preview);
    AttachmentFieldsLength(init, preview);
    if i < n {
      assert init[..i] == atts[..i] && init[i] == atts[i];
      AttachmentFieldAt(init, preview, i);
    } else {
      assert atts[..i] == init;
    }
  }

  /** Every attachment field is the field of some attachment the loop keeps. */
  lemma {:induction false} FieldsComeFromKept(atts: seq<Attachment>, preview: Option<string>)
    ensures forall f :: f in AttachmentFields(atts, preview) ==>
      exists k :: 0 <= k < |atts| && !Skipped(preview, atts[k]) && f == AttachmentField(k + 1, atts[k])
  {
    if |atts| > 0 {
      var n := |atts| - 1;
      var init := atts[..n];
      FieldsComeFromKept(init, preview);
      forall f | f in AttachmentFields(atts, preview)
        ensures exists k :: 0 <= k < |atts| && !Skipped(preview, atts[k]) && f == AttachmentField(k + 1, atts[k])
      {
        if f in AttachmentFields(init, preview) {
          var k :| 0 <= k < |init| && !Skipped(preview, init[k]) && f == AttachmentField(k + 1, init[k]);
          assert atts[k] == init[k];
        } else {
          assert f == AttachmentField(n + 1, atts[n]) && !Skipped(preview, atts[n]);
        }
      }
    }
  }

  /** A skipped attachment gets no field: labels of different positions differ. */
  lemma SkippedHasNoField(atts: seq<Attachment>, preview: Option<string>, j: nat)
    requires j < |atts| && Skipped(preview, atts[j])
    ensures AttachmentField(j + 1, atts[j]) !in AttachmentFields(atts, preview)
  {
    if AttachmentField(j + 1, atts[j]) in AttachmentFields(atts, preview) {
      FieldsComeFromKept(atts, preview);
      var k :| 0 <= k < |atts| && !Skipped(preview, atts[k])
        && AttachmentField(j + 1, atts[j]) == AttachmentField(k + 1, atts[k]);
      var head := "Attachment ";
      assert (head + Text.Decimal(k + 1))[|head|..] == Text.Decimal(k + 1);
      assert (head + Text.Decimal(j + 1))[|head|..] == Text.Decimal(j + 1);
      Text.DecimalInjective(k + 1, j + 1);
      assert false;
    }
  }

  /** Layout of the attachment fields: the one for the attachment at 0-based
      position i, labelled "Attachment i+1", is present exactly when its URL is not
      the preview's, and sits after the fields of the kept attachments before it (so
      the order of the attachments is kept); there are no other fields. */
  lemma AttachmentFieldsLayout(atts: seq<Attachment>, preview: Option<string>)
    ensures |AttachmentFields(atts, preview)| == KeptCount(atts, preview)
    ensures forall i :: 0 <= i < |atts| && !Skipped(preview, atts[i]) ==>
      KeptCount(atts[..i], preview) < KeptCount(atts, preview)
    ensures forall i :: 0 <= i < |atts| && !Skipped(preview, atts[i]) ==>
      AttachmentFields(atts, preview)[KeptCount(atts[..i], preview)] == AttachmentField(i + 1, atts[i])
    ensures forall j :: 0 <= j < |atts| && Skipped(preview, atts[j]) ==>
      AttachmentField(j + 1, atts[j]) !in AttachmentFields(atts, preview)
    ensures forall i, j :: 0 <= i < j < |atts| && !Skipped(preview, atts[i]) && !Skipped(preview, atts[j]) ==>
      KeptCount(atts[..i], preview) < KeptCount(atts[..j], preview)
    ensures preview.None? ==> KeptCount(atts, preview) == |atts|
  {
    AttachmentFieldsLength(atts, preview);
    forall i | 0 <= i < |atts| && !Skipped(preview, atts[i])
      ensures KeptCount(atts[..i], preview) < KeptCount(atts, preview)
      ensures AttachmentFields(atts, preview)[KeptCount(atts[..i], preview)] == AttachmentField(i + 1, atts[i])
    {
      AttachmentFieldAt(atts, preview, i);
    }
    forall i, j | 0 <= i < j < |atts| && !Skipped(preview, atts[i]) && !Skipped(preview, atts[j])
      ensures KeptCount(atts[..i], preview) < KeptCount(atts[..j], preview)
    {
      var prefix := atts[..j];
      assert prefix[..i] == atts[..i] && prefix[i] == atts[i];
      KeptBeforeIsFewer(prefix, preview, i);
    }
    forall j | 0 <= j < |atts| && Skipped(preview, atts[j])
      ensures AttachmentField(j + 1, atts[j]) !in AttachmentFields(atts, preview)
    {
      SkippedHasNoField(atts, preview, j);
    }
  }

  /** With no image attachment, every attachment gets a field, numbered 1, 2, 3, ... */
  lemma NoImageListsEverything(atts: seq<Attachment>)
    requires forall j :: 0 <= j < |atts| ==> !IsImage(atts[j])
    ensures |AttachmentFields(atts, PreviewUrl(atts))| == |atts|
    ensures forall i :: 0 <= i < |atts| ==> AttachmentFields(atts, PreviewUrl(atts))[i] == AttachmentField(i + 1, atts[i])
  {
    AttachmentFieldsLayout(atts, None);
    forall i | 0 <= i < |atts|
      ensures KeptCount(atts[..i], None) == i
    {
      AttachmentFieldsLength(atts[..i], None);
    }
  }
}
