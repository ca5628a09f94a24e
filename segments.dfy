/** The segment tools (tools/segments.ts): create, list, get and remove,
    each turning the provider's answer into a list of text blocks. */
module SegmentTools {
  import opened Wrappers
  import opened Text
  import opened JsArgs
  import opened Sdk
  import opened Pagination

  /** A segment as list-segments and get-segment receive it. */
  datatype Segment = Segment(id: string, name: string, createdAt: string)

  /** What create-segment and remove-segment receive. */
  datatype CreatedSegment = CreatedSegment(id: string, name: string)
  datatype RemovedSegment = RemovedSegment(id: string)

  const CreatedText := "Segment created successfully."
  const CreatedNote := "Don't bother telling the user the ID unless they ask for it."
  const NoSegmentsText := "No segments found."
  const MoreSegmentsText := "There are more segments available." + " Use the \"after\" parameter with the last ID to retrieve more."
  const ListNote := "Don't bother telling the user" + " the IDs or creation dates unless they ask for them."
  const RemovedText := "Segment removed successfully."

  /** `Name: …\nID: …` of a new segment. */
  function CreatedBlock(created: CreatedSegment): string {
    "Name: " + created.name + "\nID: " + created.id
  }

  /** create-segment: three text blocks, or the provider's error. */
  function CreateSegment(name: string, create: string -> Response<CreatedSegment>): (r: Result<seq<string>, string>)
    ensures create(name).Error? ==> r == Err("Failed to create segment: " + create(name).json)
    ensures create(name).Data? ==> r == Ok([CreatedText, CreatedBlock(create(name).data), CreatedNote])
  {
    match Unwrap(create(name), "Failed to create segment: ")
    case Err(e) => Err(e)
    case Ok(created) => Ok([CreatedText, CreatedBlock(created), CreatedNote])
  }

  /** The second block reads back as its two lines. */
  lemma {:induction false} CreatedBlockLines(created: CreatedSegment)
    requires '\n' !in created.name && '\n' !in created.id
    ensures Split(CreatedBlock(created), '\n') == ["Name: " + created.name, "ID: " + created.id]
  {
    JoinTwo("Name: " + created.name, "ID: " + created.id, "\n");
    assert CreatedBlock(created) == Join(["Name: " + created.name, "ID: " + created.id], "\n");
    SplitJoin(["Name: " + created.name, "ID: " + created.id], '\n');
  }

  /** One segment's block. */
  function SegmentBlock(segment: Segment): string {
    "Name: " + segment.name + "\nID: " + segment.id + "\nCreated at: " + segment.createdAt
  }

  /** A segment block reads back as its three lines. */
  lemma {:induction false} SegmentBlockLines(segment: Segment)
    requires '\n' !in segment.name && '\n' !in segment.id && '\n' !in segment.createdAt
    ensures Split(SegmentBlock(segment), '\n') == ["Name: " + segment.name, "ID: " + segment.id, "Created at: " + segment.createdAt]
  {
    var a, b, c := "Name: " + segment.name, "ID: " + segment.id, "Created at: " + segment.createdAt;
    JoinThree(a, b, c, "\n");
    assert "\nID: " == "\n" + "ID: " && "\nCreated at: " == "\n" + "Created at: ";
    assert SegmentBlock(segment) == a + "\n" + b + "\n" + c;
    assert '\n' !in a && '\n' !in b && '\n' !in c;
    SplitJoin([a, b, c], '\n');
  }

  /** `Found N segment` with an `s` unless there is exactly one. */
  function ListingHeader(count: nat): string {
    "Found " + NatToString(count) + " segment" + (if count == 1 then "" else "s") + ":"
  }

  /** The header is plural exactly when the count is not one. */
  lemma {:induction false} ListingHeaderPlural(count: nat)
    ensures var h := ListingHeader(count); |h| >= 2 && (h[|h| - 2] == 's' <==> count != 1)
  {
    var h := ListingHeader(count);
    var n := NatToString(count);
    if count == 1 {
      assert h == "Found " + n + " segment:";
    } else {
      assert h == "Found " + n + " segments:";
    }
  }

  /** The blocks of a list-segments reply. */
  function ListingBlocks(segments: seq<Segment>, hasMore: bool): (blocks: seq<string>)
    ensures segments == [] ==> blocks == [NoSegmentsText]
    ensures segments != [] ==> |blocks| == 1 + |segments| + (if hasMore then 1 else 0) + 1
    ensures segments != [] ==>
      && blocks[0] == ListingHeader(|segments|)
      && (forall i :: 0 <= i < |segments| ==> blocks[1 + i] == SegmentBlock(segments[i]))
      && (hasMore ==> blocks[1 + |segments|] == MoreSegmentsText)
      && blocks[|blocks| - 1] == ListNote
  {
    if |segments| == 0 then [NoSegmentsText]
    else
      [ListingHeader(|segments|)]
        + seq(|segments|, i requires 0 <= i < |segments| => SegmentBlock(segments[i]))
        + (if hasMore then [MoreSegmentsText] else [])
        + [ListNote]
  }

  /** The "more available" block is there exactly when the page says there is
      more; no other block can be mistaken for it. */
  lemma {:induction false} MoreBlockIff(segments: seq<Segment>, hasMore: bool)
    requires segments != []
    ensures MoreSegmentsText in ListingBlocks(segments, hasMore) <==> hasMore
  {
    var blocks := ListingBlocks(segments, hasMore);
    if !hasMore {
      forall k | 0 <= k < |blocks|
        ensures blocks[k] != MoreSegmentsText
      {
        assert MoreSegmentsText[0] == 'T';
        if k == 0 {
          assert blocks[k] == ListingHeader(|segments|);
          assert blocks[k][0] == 'F';
        } else if k <= |segments| {
          assert blocks[k] == SegmentBlock(segments[k - 1]);
          assert blocks[k][0] == 'N';
        } else {
          assert blocks[k] == ListNote;
          assert blocks[k][0] == 'D';
        }
      }
    } else {
      assert blocks[1 + |segments|] == MoreSegmentsText;
    }
  }

  /** list-segments: the pagination rule, then the provider's page as blocks. */
  function ListSegments(req: PageRequest, list: Option<PaginationOptions> -> Response<Option<ListData<Segment>>>): (r: Result<seq<string>, string>)
    ensures PaginationFor(req).Err? ==> r == Err(BothCursorsError)
    ensures PaginationFor(req).Ok? && list(PaginationFor(req).value).Error? ==>
      r == Err("Failed to list segments: " + list(PaginationFor(req).value).json)
    ensures PaginationFor(req).Ok? && list(PaginationFor(req).value).Data? ==>
      var d := list(PaginationFor(req).value).data;
      r == Ok(ListingBlocks(PageItems(d), PageHasMore(d)))
  {
    match PaginationFor(req)
    case Err(e) => Err(e)
    case Ok(options) =>
      match Unwrap(list(options), "Failed to list segments: ")
      case Err(e) => Err(e)
      case Ok(d) => Ok(ListingBlocks(PageItems(d), PageHasMore(d)))
  }

  /** The cursor clash is rejected whatever the provider would answer. */
  lemma CursorClashSkipsProvider(req: PageRequest, list1: Option<PaginationOptions> -> Response<Option<ListData<Segment>>>,
                                 list2: Option<PaginationOptions> -> Response<Option<ListData<Segment>>>)
    requires Present(req.after) && Present(req.before)
    ensures ListSegments(req, list1) == ListSegments(req, list2) == Err(BothCursorsError)
  {
  }

  /** get-segment: the segment's block, or the provider's error. */
  function GetSegment(id: string, get: string -> Response<Segment>): (r: Result<seq<string>, string>)
    ensures get(id).Error? ==> r == Err("Failed to get segment: " + get(id).json)
    ensures get(id).Data? ==> r == Ok([SegmentBlock(get(id).data)])
  {
    match Unwrap(get(id), "Failed to get segment: ")
    case Err(e) => Err(e)
    case Ok(segment) => Ok([SegmentBlock(segment)])
  }

  /** remove-segment: a confirmation and the removed ID, or the provider's error. */
  function RemoveSegment(id: string, remove: string -> Response<RemovedSegment>): (r: Result<seq<string>, string>)
    ensures remove(id).Error? ==> r == Err("Failed to remove segment: " + remove(id).json)
    ensures remove(id).Data? ==> r == Ok([RemovedText, "ID: " + remove(id).data.id])
  {
    match Unwrap(remove(id), "Failed to remove segment: ")
    case Err(e) => Err(e)
    case Ok(removed) => Ok([RemovedText, "ID: " + removed.id])
  }
}
