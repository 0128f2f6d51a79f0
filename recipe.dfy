/**
 * The Recipe record: six nullable fields with a getter and a setter each, and
 * the tag set's string form. A Java null is None.
 */
module RecipeDto {
  import opened Wrappers
  import opened RecipeTags

  /** A snapshot of a Recipe's fields, in declaration order. */
  datatype RecipeFields = RecipeFields(
    id: Option<int>,
    name: Option<string>,
    duration: Option<real>,
    description: Option<string>,
    tags: Option<set<RecipeTag>>,
    deleted: Option<bool>)

  /**
   * What the tag-string accessors throw: a NullPointerException when
   * setTagsAsString gets a null string or getTagsAsString finds a null tag
   * set, an IllegalArgumentException naming the piece valueOf rejected.
   */
  datatype TagFailure = NullReference | NoSuchTag(piece: string)

  class Recipe {
    var id: Option<int>
    var name: Option<string>
    var duration: Option<real>
    var description: Option<string>
    var tags: Option<set<RecipeTag>>
    var deleted: Option<bool>

    function Fields(): RecipeFields
      reads this
    {
      RecipeFields(id, name, duration, description, tags, deleted)
    }

    /** The constructor taking a tag set; it accepts a description and does not store it. */
    constructor (id: Option<int>, name: Option<string>, duration: Option<real>, description: Option<string>,
                 tags: Option<set<RecipeTag>>, deleted: Option<bool>)
      ensures Fields() == RecipeFields(id, name, duration, None, tags, deleted)
    {
      this.id := id;
      this.name := name;
      this.duration := duration;
      this.description := None;
      this.tags := tags;
      this.deleted := deleted;
    }

    /**
     * The constructor taking the tags' string form. It too drops the
     * description; when setTagsAsString throws, no Recipe comes out.
     */
    static method FromTagsString(id: Option<int>, name: Option<string>, duration: Option<real>, description: Option<string>,
                                 tagsAsString: Option<string>, deleted: Option<bool>)
      returns (r: Result<Recipe, TagFailure>)
      ensures tagsAsString.None? ==> r == Failure(NullReference)
      ensures tagsAsString.Some? && Decode(tagsAsString.value).Failure? ==>
                r == Failure(NoSuchTag(Decode(tagsAsString.value).error))
      ensures tagsAsString.Some? && Decode(tagsAsString.value).Success? ==>
                r.Success? && fresh(r.value) &&
                r.value.Fields() == RecipeFields(id, name, duration, None, Some(Decode(tagsAsString.value).value), deleted)
    {
      var recipe := new Recipe(id, name, duration, description, None, deleted);
      var thrown := recipe.SetTagsAsString(tagsAsString);
      if thrown.Some? {
        return Failure(thrown.value);
      }
      return Success(recipe);
    }

    function GetId(): Option<int> reads this { id }
    function GetName(): Option<string> reads this { name }
    function GetDuration(): Option<real> reads this { duration }
    function GetDescription(): Option<string> reads this { description }
    function GetTags(): Option<set<RecipeTag>> reads this { tags }
    function GetDeleted(): Option<bool> reads this { deleted }

    method SetId(id: Option<int>)
      modifies this
      ensures Fields() == old(Fields()).(id := id)
    {
      this.id := id;
    }

    method SetName(name: Option<string>)
      modifies this
      ensures Fields() == old(Fields()).(name := name)
    {
      this.name := name;
    }

    method SetDuration(duration: Option<real>)
      modifies this
      ensures Fields() == old(Fields()).(duration := duration)
    {
      this.duration := duration;
    }

    method SetDescription(description: Option<string>)
      modifies this
      ensures Fields() == old(Fields()).(description := description)
    {
      this.description := description;
    }

    method SetTags(tags: Option<set<RecipeTag>>)
      modifies this
      ensures Fields() == old(Fields()).(tags := tags)
    {
      this.tags := tags;
    }

    method SetDeleted(deleted: Option<bool>)
      modifies this
      ensures Fields() == old(Fields()).(deleted := deleted)
    {
      this.deleted := deleted;
    }

    /**
     * getTagsAsString: null tags throw; otherwise one letter per tag in
     * declaration order, a string that decodes back to the tags unless the
     * set is empty.
     */
    function TagsAsString(): (r: Result<string, TagFailure>)
      reads this
      ensures tags.None? <==> r == Failure(NullReference)
      ensures tags.Some? ==> r == Success(Encode(tags.value))
      ensures r.Success? ==> |r.value| == |tags.value|
      ensures r.Success? ==> Decode(r.value) == if tags.value == {} then Failure("") else Success(tags.value)
    {
      match tags
      case None => Failure(NullReference)
      case Some(ts) =>
        EncodeSpec(ts);
        if ts == {} then
          EmptySetDoesNotRoundTrip();
          Success(Encode(ts))
        else
          RoundTrip(ts);
          Success(Encode(ts))
    }

    /**
     * setTagsAsString: replaces the tags with the decoded set; when it
     * throws, the tags keep their old value.
     */
    method SetTagsAsString(s: Option<string>) returns (thrown: Option<TagFailure>)
      modifies this
      ensures s.None? ==> thrown == Some(NullReference) && Fields() == old(Fields())
      ensures s.Some? && Decode(s.value).Failure? ==>
                thrown == Some(NoSuchTag(Decode(s.value).error)) && Fields() == old(Fields())
      ensures s.Some? && Decode(s.value).Success? ==>
                thrown == None && Fields() == old(Fields()).(tags := Some(Decode(s.value).value))
    {
      if s.None? {
        return Some(NullReference);
      }
      match Decode(s.value)
      case Failure(piece) =>
        return Some(NoSuchTag(piece));
      case Success(ts) =>
        tags := Some(ts);
        return None;
    }
  }
}
