/** The add-destination form (`AddDestinationModal.tsx`): the form fields, the hashtag
    editor, the image list and the submit check that hands a new record over. */
module AddDestination {
  import opened Wrappers
  import opened Text
  import opened Seqs
  import opened Destinations

  /** The location a new form starts with. */
  const DefaultLocation: Location := Location(44.4268, 26.1025, "Bucure\U{0219}ti")

  // ---------------------------------------------------------------------------
  // Hashtags
  // ---------------------------------------------------------------------------

  /** What the hashtag list always satisfies: distinct, trimmed, non-empty entries. */
  predicate TagsValid(tags: seq<string>) {
    NoDup(tags) && forall i :: 0 <= i < |tags| ==> tags[i] != [] && IsTrimmed(tags[i])
  }

  /** The keys that commit the hashtag input. */
  predicate IsCommitKey(key: string) {
    key == "Enter" || key == ","
  }

  /** A key press adds the trimmed input exactly when the key commits, the trimmed input is
      not empty and it is not in the list yet. */
  predicate AcceptsTag(tags: seq<string>, input: string, key: string) {
    IsCommitKey(key) && Trim(input) != [] && Trim(input) !in tags
  }

  /** A tag added to a valid list keeps it valid. */
  lemma AcceptedTagKeepsValid(tags: seq<string>, input: string, key: string)
    requires TagsValid(tags) && AcceptsTag(tags, input, key)
    ensures TagsValid(tags + [Trim(input)])
  {
    var t := Trim(input);
    var s := tags + [t];
    forall i, j | 0 <= i < j < |s| ensures s[i] != s[j] {
      if j == |tags| {
        assert s[i] == tags[i];
      }
    }
  }

  /** Once a tag is added, committing the same text again is refused. */
  lemma SameTagTwiceRefused(tags: seq<string>, input: string, key: string)
    requires AcceptsTag(tags, input, key)
    ensures !AcceptsTag(tags + [Trim(input)], input, key)
  {
    assert (tags + [Trim(input)])[|tags|] == Trim(input);
  }

  /** Every stored tag is its own trim, so the text stored is the text compared. */
  lemma StoredTagsAreTrimmed(tags: seq<string>, i: int)
    requires TagsValid(tags) && 0 <= i < |tags|
    ensures Trim(tags[i]) == tags[i]
  {
    TrimTrimmed(tags[i]);
  }

  /** `hashtags.filter(tag => tag !== t)`. */
  function WithoutTag(tags: seq<string>, t: string): (r: seq<string>)
    ensures forall x :: multiset(r)[x] == if x == t then 0 else multiset(tags)[x]
  {
    Filter(tags, (x: string) => x != t)
  }

  /** Removing a tag drops all of its occurrences and keeps the other tags, in order. */
  lemma WithoutTagKeepsOthers(tags: seq<string>, t: string)
    ensures t !in WithoutTag(tags, t)
    ensures forall i :: 0 <= i < |tags| && tags[i] != t ==> tags[i] in WithoutTag(tags, t)
    ensures IsSubsequence(WithoutTag(tags, t), tags)
  {
    FilterIsSubsequence(tags, (x: string) => x != t);
  }

  /** Removing a tag from a valid list keeps it valid. */
  lemma WithoutTagKeepsValid(tags: seq<string>, t: string)
    requires TagsValid(tags)
    ensures TagsValid(WithoutTag(tags, t))
  {
    var r := WithoutTag(tags, t);
    WithoutTagKeepsOthers(tags, t);
    SubsequenceNoDup(r, tags);
    forall i | 0 <= i < |r| ensures r[i] != [] && IsTrimmed(r[i]) {
      var j :| 0 <= j < |tags| && tags[j] == r[i];
    }
  }

  // ---------------------------------------------------------------------------
  // Images
  // ---------------------------------------------------------------------------

  /** `images.filter((_, i) => i !== index)`: the element at `index` left out, the others kept
      in order; an index outside the list removes nothing. */
  function RemoveAt<T>(s: seq<T>, index: int): (r: seq<T>)
    ensures 0 <= index < |s| ==> r == s[..index] + s[index + 1..]
    ensures !(0 <= index < |s|) ==> r == s
  {
    if s == [] then []
    else
      var rest := RemoveAt(s[1..], index - 1);
      if index == 0 then
        rest
      else
        assert 0 < index < |s| ==> s[..index] + s[index + 1..] == [s[0]] + (s[1..][..index - 1] + s[1..][index..]);
        [s[0]] + rest
  }

  /** Removing image `index` shortens the list by one and shifts the later images down. */
  lemma RemoveAtShifts<T>(s: seq<T>, index: int)
    requires 0 <= index < |s|
    ensures |RemoveAt(s, index)| == |s| - 1
    ensures forall k :: 0 <= k < |s| - 1 ==>
      RemoveAt(s, index)[k] == if k < index then s[k] else s[k + 1]
  {
  }

  // ---------------------------------------------------------------------------
  // The form state
  // ---------------------------------------------------------------------------

  /** The `useState` values of the form. */
  class AddDestinationForm {
    var title: string
    var description: string
    var hashtags: seq<string>
    var hashtagInput: string
    var images: seq<string>
    var showMap: bool
    var location: Location

    ghost predicate Valid()
      reads this
    {
      TagsValid(hashtags)
    }

    /** The initial state: empty fields, no hashtags, no images, the map closed and the
        default location. */
    constructor ()
      ensures title == [] && description == [] && hashtags == [] && hashtagInput == []
      ensures images == [] && !showMap && location == DefaultLocation
      ensures Valid()
    {
      title := [];
      description := [];
      hashtags := [];
      hashtagInput := [];
      images := [];
      showMap := false;
      location := DefaultLocation;
    }

    /** The title input's `onChange`. */
    method SetTitle(value: string)
      modifies this
      ensures title == value
      ensures description == old(description) && hashtags == old(hashtags)
      ensures hashtagInput == old(hashtagInput) && images == old(images)
      ensures showMap == old(showMap) && location == old(location)
    {
      title := value;
    }

    /** The description input's `onChange`. */
    method SetDescription(value: string)
      modifies this
      ensures description == value
      ensures title == old(title) && hashtags == old(hashtags)
      ensures hashtagInput == old(hashtagInput) && images == old(images)
      ensures showMap == old(showMap) && location == old(location)
    {
      description := value;
    }

    /** The hashtag input's `onChange`. */
    method SetHashtagInput(value: string)
      modifies this
      ensures hashtagInput == value
      ensures title == old(title) && description == old(description)
      ensures hashtags == old(hashtags) && images == old(images)
      ensures showMap == old(showMap) && location == old(location)
    {
      hashtagInput := value;
    }

    /** `handleHashtagKeyDown`: on Enter or `,` a trimmed, non-empty, new input is appended
        and the input cleared; a blank or duplicate input, or any other key, changes
        nothing (a duplicate is not cleared). */
    method HashtagKeyDown(key: string)
      modifies this
      ensures AcceptsTag(old(hashtags), old(hashtagInput), key) ==>
        hashtags == old(hashtags) + [Trim(old(hashtagInput))] && hashtagInput == []
      ensures !AcceptsTag(old(hashtags), old(hashtagInput), key) ==>
        hashtags == old(hashtags) && hashtagInput == old(hashtagInput)
      ensures title == old(title) && description == old(description) && images == old(images)
      ensures showMap == old(showMap) && location == old(location)
      ensures old(Valid()) ==> Valid()
    {
      if key == "Enter" || key == "," {
        var trimmed := Trim(hashtagInput);
        if trimmed != [] && trimmed !in hashtags {
          if Valid() {
            AcceptedTagKeepsValid(hashtags, hashtagInput, key);
          }
          hashtags := hashtags + [trimmed];
          hashtagInput := [];
        }
      }
    }

    /** `removeHashtag(t)`. */
    method RemoveHashtag(t: string)
      modifies this
      ensures hashtags == WithoutTag(old(hashtags), t)
      ensures title == old(title) && description == old(description)
      ensures hashtagInput == old(hashtagInput) && images == old(images)
      ensures showMap == old(showMap) && location == old(location)
      ensures old(Valid()) ==> Valid()
    {
      if Valid() {
        WithoutTagKeepsValid(hashtags, t);
      }
      hashtags := WithoutTag(hashtags, t);
    }

    /** A file reader's `onloadend`: the data URL is appended to the images. */
    method ImageLoaded(dataUrl: string)
      modifies this
      ensures images == old(images) + [dataUrl]
      ensures title == old(title) && description == old(description)
      ensures hashtags == old(hashtags) && hashtagInput == old(hashtagInput)
      ensures showMap == old(showMap) && location == old(location)
    {
      images := images + [dataUrl];
    }

    /** The remove button of the preview at `index`. */
    method RemoveImage(index: int)
      modifies this
      ensures images == RemoveAt(old(images), index)
      ensures title == old(title) && description == old(description)
      ensures hashtags == old(hashtags) && hashtagInput == old(hashtagInput)
      ensures showMap == old(showMap) && location == old(location)
    {
      images := RemoveAt(images, index);
    }

    /** The map buttons: open the picker. */
    method OpenMap()
      modifies this
      ensures showMap
      ensures title == old(title) && description == old(description)
      ensures hashtags == old(hashtags) && hashtagInput == old(hashtagInput)
      ensures images == old(images) && location == old(location)
    {
      showMap := true;
    }

    /** The picker's `onClose`. */
    method CloseMap()
      modifies this
      ensures !showMap
      ensures title == old(title) && description == old(description)
      ensures hashtags == old(hashtags) && hashtagInput == old(hashtagInput)
      ensures images == old(images) && location == old(location)
    {
      showMap := false;
    }

    /** The picker's `onLocationSelect`: the location is taken and the picker closed. */
    method SelectLocation(newLocation: Location)
      modifies this
      ensures location == newLocation && !showMap
      ensures title == old(title) && description == old(description)
      ensures hashtags == old(hashtags) && hashtagInput == old(hashtagInput)
      ensures images == old(images)
    {
      location := newLocation;
      showMap := false;
    }

    /** `handleSubmit`: nothing is handed over, and the form stays open, when the title or
        the description is empty or there is no image; otherwise the record of the current
        fields is handed to `onAdd` and the form closes. The form state is not changed. */
    method Submit() returns (emitted: Option<Draft>, closes: bool)
      ensures emitted.None? <==> title == [] || description == [] || |images| == 0
      ensures emitted.Some? ==>
        emitted.value == Draft(title, description, hashtags, images, location)
      ensures closes <==> emitted.Some?
    {
      if title == [] || description == [] || |images| == 0 {
        return None, false;
      }
      emitted := Some(Draft(title, description, hashtags, images, location));
      closes := true;
    }
  }
}
