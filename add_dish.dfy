/**
 * The dish form of the AddDish page: the draft's fields, the ingredient list
 * editor, the image chooser, the "all fields filled" flag and the two halves
 * of a submission around the POST request.
 */
module AddDish {
  import opened Options
  import opened Seqs
  import opened Text
  import opened Price

  /** A chosen file; only its MIME type is inspected. */
  datatype ImageFile = ImageFile(fileName: string, mimeType: string)

  /** The fields sent with POST /dishes. */
  datatype Submission = Submission(
    image: Option<ImageFile>,
    name: string,
    category: string,
    ingredients: seq<string>,
    priceCents: nat,
    description: string)

  /** file.type.startsWith("image/") */
  predicate IsImageType(mimeType: string) {
    "image/" <= mimeType
  }

  /** The condition of checkBlankFields: four non-empty strings and at least one ingredient. */
  predicate AllFieldsFilled(name: string, category: string, ingredients: seq<string>, price: string, description: string) {
    name != "" && category != "" && |ingredients| > 0 && price != "" && description != ""
  }

  function IsNot(deleted: string): string -> bool {
    (ingredient: string) => ingredient != deleted
  }

  /** The list left by handleRemoveIngredient: every entry different from `deleted`. */
  function WithoutIngredient(ingredients: seq<string>, deleted: string): seq<string> {
    Filter(IsNot(deleted), ingredients)
  }

  /**
   * Removing deletes every copy of the removed text, keeps every copy of
   * every other text, and keeps the survivors in their order.
   */
  lemma WithoutIngredientSpec(ingredients: seq<string>, deleted: string)
    ensures deleted !in WithoutIngredient(ingredients, deleted)
    ensures forall x :: x != deleted ==>
              multiset(WithoutIngredient(ingredients, deleted))[x] == multiset(ingredients)[x]
    ensures IsSubsequence(WithoutIngredient(ingredients, deleted), ingredients)
  {
    FilterMember(IsNot(deleted), ingredients, deleted);
    forall x | x != deleted
      ensures multiset(WithoutIngredient(ingredients, deleted))[x] == multiset(ingredients)[x]
    {
      FilterCount(IsNot(deleted), ingredients, x);
    }
    FilterIsSubsequence(IsNot(deleted), ingredients);
  }

  /** The draft's state, one field per `useState` of the form. */
  class DishDraft {
    /** The preview URL shown for the chosen image ("" when none). */
    var dishImage: string
    /** The file that will be uploaded. */
    var dishImageFile: Option<ImageFile>
    var name: string
    var selectedCategory: string
    var ingredients: seq<string>
    var newIngredient: string
    var price: string
    var description: string
    var isNotBlankFields: bool
    var loadingCreate: bool

    /** The flag agrees with the fields, so the "Adicionar" button is enabled exactly when every required field is filled. */
    ghost predicate Valid()
      reads this
    {
      isNotBlankFields == AllFieldsFilled(name, selectedCategory, ingredients, price, description)
    }

    constructor ()
      ensures Valid()
      ensures dishImage == "" && dishImageFile == None && name == "" && selectedCategory == ""
      ensures ingredients == [] && newIngredient == "" && price == "" && description == ""
      ensures !isNotBlankFields && !loadingCreate
    {
      dishImage, dishImageFile := "", None;
      name, selectedCategory := "", "";
      ingredients, newIngredient := [], "";
      price, description := "", "";
      isNotBlankFields, loadingCreate := false, false;
    }

    /** checkBlankFields, run after every change of a field it depends on. */
    method CheckBlankFields()
      modifies this`isNotBlankFields
      ensures Valid()
      ensures isNotBlankFields <==>
                name != "" && selectedCategory != "" && |ingredients| > 0 && price != "" && description != ""
    {
      if name != "" && selectedCategory != "" && |ingredients| > 0 && price != "" && description != "" {
        isNotBlankFields := true;
      } else {
        isNotBlankFields := false;
      }
    }

    method SetName(value: string)
      modifies this`name, this`isNotBlankFields
      ensures Valid() && name == value
    {
      name := value;
      CheckBlankFields();
    }

    /** handleCategory */
    method SetCategory(value: string)
      modifies this`selectedCategory, this`isNotBlankFields
      ensures Valid() && selectedCategory == value
    {
      selectedCategory := value;
      CheckBlankFields();
    }

    method SetPrice(value: string)
      modifies this`price, this`isNotBlankFields
      ensures Valid() && price == value
    {
      price := value;
      CheckBlankFields();
    }

    method SetDescription(value: string)
      modifies this`description, this`isNotBlankFields
      ensures Valid() && description == value
    {
      description := value;
      CheckBlankFields();
    }

    /** Typing in the new-ingredient box; the flag does not depend on it. */
    method SetNewIngredient(value: string)
      modifies this`newIngredient
      ensures newIngredient == value
    {
      newIngredient := value;
    }

    /**
     * handleAddIngredient: a pending text that trims to "" is refused (a
     * warning is shown); any other is appended as typed, untrimmed. The
     * pending text is cleared either way.
     */
    method AddIngredient() returns (accepted: bool)
      requires Valid()
      modifies this`ingredients, this`newIngredient, this`isNotBlankFields
      ensures Valid()
      ensures accepted <==> !AllTrimmable(old(newIngredient))
      ensures ingredients == if accepted then old(ingredients) + [old(newIngredient)] else old(ingredients)
      ensures newIngredient == ""
    {
      TrimIsEmptyIff(newIngredient);
      if Trim(newIngredient) == "" {
        newIngredient := "";
        return false;
      }
      ingredients := ingredients + [newIngredient];
      newIngredient := "";
      CheckBlankFields();
      accepted := true;
    }

    /** handleRemoveIngredient */
    method RemoveIngredient(deleted: string)
      modifies this`ingredients, this`isNotBlankFields
      ensures Valid()
      ensures ingredients == WithoutIngredient(old(ingredients), deleted)
    {
      ingredients := WithoutIngredient(ingredients, deleted);
      CheckBlankFields();
    }

    /**
     * handleChoiceOfDish: the first chosen file is taken when there is one
     * and its MIME type starts with "image/"; `objectUrl` stands for the
     * preview URL the browser creates for it. Otherwise nothing changes.
     */
    method ChooseFile(file: Option<ImageFile>, objectUrl: string) returns (accepted: bool)
      modifies this`dishImage, this`dishImageFile
      ensures accepted <==> file.Some? && IsImageType(file.value.mimeType)
      ensures accepted ==> dishImageFile == file && dishImage == objectUrl
      ensures !accepted ==> dishImageFile == old(dishImageFile) && dishImage == old(dishImage)
    {
      accepted := file.Some? && IsImageType(file.value.mimeType);
      if accepted {
        dishImageFile := file;
        dishImage := objectUrl;
      }
    }

    /** The close button on the preview clears the preview only; the chosen file stays. */
    method ClearPreview()
      modifies this`dishImage
      ensures dishImage == ""
    {
      dishImage := "";
    }

    /**
     * handleNewDish up to the POST: a price that does not match the pattern
     * is refused and the `finally` block leaves the loading flag false; an
     * accepted price yields the submission (with the image only when a file
     * was chosen, and the price in cents) and raises the loading flag.
     */
    method BeginSubmit() returns (post: Option<Submission>)
      modifies this`loadingCreate
      ensures post.Some? <==> MatchesPricePattern(price)
      ensures post.Some? ==>
                loadingCreate &&
                post.value == Submission(dishImageFile, name, selectedCategory, ingredients,
                                         ParsePrice(price).value, description)
      ensures post.None? ==> !loadingCreate
    {
      var cents := ParsePrice(price);
      if cents.None? {
        loadingCreate := false;
        return None;
      }
      post := Some(Submission(dishImageFile, name, selectedCategory, ingredients, cents.value, description));
      loadingCreate := true;
    }

    /**
     * handleNewDish after the POST settles: the loading flag drops whether it
     * succeeded or failed, the draft is kept for a retry, and only a success
     * leads back to the home page.
     */
    method FinishSubmit(postSucceeded: bool) returns (navigateHome: bool)
      modifies this`loadingCreate
      ensures !loadingCreate
      ensures navigateHome == postSucceeded
    {
      loadingCreate := false;
      navigateHome := postSucceeded;
    }
  }
}
