/** The admin package editor (src/Components/PackageManagement.jsx): the
    add/edit dialog with its create-or-update choice, and the list dialog
    that shows one list field of a package (included, excluded, terms or a
    menu section) and edits a copy of it item by item before saving. */
module PackageManagement {

  import opened Wrappers
  import opened Catalog
  import opened Feedback

  /** The three menu sections the editor knows, in the order the safe copy
      lists them. */
  const MenuKeys: seq<string> := ["welcomeSweets", "starters", "mainCourse"]

  /** The package a new-package dialog starts from. */
  function NewPackage(): (r: Package)
    ensures r.id.None? && r.pricingType == "fixed"
    ensures r.included == Some([]) && r.excluded == Some([]) && r.terms == Some([])
    ensures r.menu.Some? && |r.menu.value| == |MenuKeys|
    ensures forall i :: 0 <= i < |r.menu.value| ==> r.menu.value[i] == MenuSection(MenuKeys[i], [])
  {
    Package(None, "", "", "", "fixed", "", [], "",
      Some([]), Some([]), Some([]),
      Some([MenuSection("welcomeSweets", []), MenuSection("starters", []), MenuSection("mainCourse", [])]),
      None)
  }

  /** `pkg.menu?.[key] || []`. */
  function SectionOrEmpty(menu: Option<seq<MenuSection>>, key: string): seq<string> {
    if menu.None? then [] else Lookup(menu.value, key).GetOr([])
  }

  /** The safe copy handleOpenArrayDialog makes: missing lists become empty,
      and the menu is rebuilt with exactly the three known sections. */
  function SafePackage(pkg: Package): (r: Package)
    ensures r.included == Some(pkg.included.GetOr([]))
    ensures r.excluded == Some(pkg.excluded.GetOr([]))
    ensures r.terms == Some(pkg.terms.GetOr([]))
    ensures r.menu.Some? && |r.menu.value| == |MenuKeys| && DistinctCategories(r.menu.value)
    ensures forall i :: 0 <= i < |MenuKeys| ==>
              r.menu.value[i] == MenuSection(MenuKeys[i], SectionOrEmpty(pkg.menu, MenuKeys[i]))
    ensures r.(included := pkg.included, excluded := pkg.excluded, terms := pkg.terms, menu := pkg.menu) == pkg
  {
    pkg.(included := Some(pkg.included.GetOr([])),
         excluded := Some(pkg.excluded.GetOr([])),
         terms := Some(pkg.terms.GetOr([])),
         menu := Some(seq(|MenuKeys|, i requires 0 <= i < |MenuKeys| =>
                   MenuSection(MenuKeys[i], SectionOrEmpty(pkg.menu, MenuKeys[i])))))
  }

  /** Making the safe copy of a safe copy changes nothing. */
  lemma SafePackageIdempotent(pkg: Package)
    ensures SafePackage(SafePackage(pkg)) == SafePackage(pkg)
  {
    var once := SafePackage(pkg);
    var menu := once.menu.value;
    forall i | 0 <= i < |MenuKeys|
      ensures SectionOrEmpty(once.menu, MenuKeys[i]) == menu[i].items
    {
      LookupFinds(menu, i);
    }
    assert SafePackage(once).menu.value == menu;
  }

  /** The lists a list dialog can show. */
  datatype ListField = Included | Excluded | Terms | MenuList

  /** The field name a button passes. */
  function FieldName(f: ListField): string {
    match f
    case Included => "included"
    case Excluded => "excluded"
    case Terms => "terms"
    case MenuList => "menu"
  }

  /** The title of a non-menu list dialog. */
  function ListTitle(field: string): (r: string)
    ensures field == "included" ==> r == "Includes"
    ensures field == "excluded" ==> r == "Excludes"
    ensures field != "included" && field != "excluded" ==> r == "Terms"
  {
    if field == "included" then "Includes" else if field == "excluded" then "Excludes" else "Terms"
  }

  /** The list a list dialog shows for a safe copy. */
  function ListOf(safe: Package, f: ListField, section: string): seq<string> {
    match f
    case Included => safe.included.GetOr([])
    case Excluded => safe.excluded.GetOr([])
    case Terms => safe.terms.GetOr([])
    case MenuList => SectionOrEmpty(safe.menu, section)
  }

  /** The body of the list dialog's PUT: the menu section, or the field. */
  datatype UpdatePayload =
    | MenuPayload(section: string, items: seq<string>)
    | FieldPayload(field: string, items: seq<string>)

  /** The package dialog's save: an update of the package with that `_id`,
      or the creation of a new one. */
  datatype SaveRequest = Create(pkg: Package) | Update(packageId: string, pkg: Package)

  /** `editPackage._id` is truthy. */
  predicate HasId(pkg: Package) {
    pkg.id.Some? && pkg.id.value != ""
  }

  /** The package dialog's title. */
  function PackageDialogTitle(pkg: Option<Package>): (r: string)
    ensures r == "Edit Package" || r == "Add Package"
    ensures r == "Edit Package" <==> pkg.Some? && HasId(pkg.value)
  {
    if pkg.Some? && HasId(pkg.value) then "Edit Package" else "Add Package"
  }

  /** The package card's pricing line. */
  function PricingTypeLabel(pricingType: string): (r: string)
    ensures pricingType == "fixed" <==> r == "Fixed"
    ensures pricingType == "perPerson" <==> r == "Per Person"
    ensures pricingType != "fixed" && pricingType != "perPerson" <==> r == "Custom"
  {
    if pricingType == "fixed" then "Fixed" else if pricingType == "perPerson" then "Per Person" else "Custom"
  }

  /** The buffer after `splice(index, 1)`: a negative index counts from the
      end, and an index at or past the end removes nothing. */
  function SpliceOne(s: seq<string>, index: int): (r: seq<string>)
    ensures 0 <= index < |s| ==> |r| == |s| - 1 && r == s[..index] + s[index + 1..]
    ensures index >= |s| ==> r == s
    ensures index < 0 && -index <= |s| ==> r == s[..|s| + index] + s[|s| + index + 1..]
    ensures index < 0 && -index > |s| && s != [] ==> r == s[1..]
  {
    var start := if index < 0 then (if |s| + index < 0 then 0 else |s| + index) else index;
    if start < |s| then s[..start] + s[start + 1..] else s
  }

  /** Deleting an item keeps the others in their order: what is left is
      exactly the items before it followed by the items after it. */
  lemma SpliceKeepsOthers(s: seq<string>, index: int, j: int)
    requires 0 <= index < |s| && 0 <= j < |s| - 1
    ensures SpliceOne(s, index)[j] == if j < index then s[j] else s[j + 1]
  {
  }

  const SaveFailedText := "Error saving package \U{274C}"

  class Editor {
    var packages: seq<Package>
    var packageDialogOpen: bool
    var arrayDialogOpen: bool
    var arrayField: string
    var arrayTitle: string
    var menuField: string
    var editPackage: Option<Package>
    var toast: Toast<string>
    var arrayData: seq<string>
    var editMode: bool

    constructor ()
      ensures packages == [] && !packageDialogOpen && !arrayDialogOpen
      ensures arrayField == "" && arrayTitle == "" && menuField == ""
      ensures editPackage == None && toast == Toast(false, "", Info)
      ensures arrayData == [] && !editMode
    {
      packages := [];
      packageDialogOpen := false;
      arrayDialogOpen := false;
      arrayField := "";
      arrayTitle := "";
      menuField := "";
      editPackage := None;
      toast := Toast(false, "", Info);
      arrayData := [];
      editMode := false;
    }

    /** fetchPackages: the list becomes the response; a failure keeps it. */
    method FetchPackages(reply: Reply<seq<Package>>)
      modifies this`packages
      ensures packages == if reply.Ok? then reply.data else old(packages)
    {
      if reply.Ok? {
        packages := reply.data;
      }
    }

    /** handleOpenPackageDialog: edit the given package, or start a new one. */
    method OpenPackageDialog(pkg: Option<Package>)
      modifies this`editPackage, this`packageDialogOpen
      ensures editPackage == Some(pkg.GetOr(NewPackage())) && packageDialogOpen
    {
      editPackage := Some(pkg.GetOr(NewPackage()));
      packageDialogOpen := true;
    }

    /** handleSavePackage: PUT the package when it has an `_id`, else POST
        it; on success close the dialog and fetch the list again. With no
        package being edited the save fails before any request. */
    method SavePackage(reply: Reply<()>, refetch: Reply<seq<Package>>) returns (request: Option<SaveRequest>)
      modifies this`toast, this`packageDialogOpen, this`packages
      ensures editPackage.None? ==> request.None?
      ensures editPackage.Some? && HasId(editPackage.value) ==>
                request == Some(Update(editPackage.value.id.value, editPackage.value))
      ensures editPackage.Some? && !HasId(editPackage.value) ==> request == Some(Create(editPackage.value))
      ensures request.Some? && reply.Ok? ==>
                && !packageDialogOpen
                && toast == Toast(true, if request.value.Update? then "Package updated \U{2705}" else "Package added \U{2705}", Success)
                && packages == if refetch.Ok? then refetch.data else old(packages)
      ensures request.None? || reply.Failed? ==>
                packageDialogOpen == old(packageDialogOpen) && packages == old(packages)
                && toast == Toast(true, SaveFailedText, Error)
    {
      if editPackage.None? {
        toast := Toast(true, SaveFailedText, Error);
        return None;
      }
      var pkg := editPackage.value;
      if HasId(pkg) {
        request := Some(Update(pkg.id.value, pkg));
        if reply.Ok? {
          toast := Toast(true, "Package updated \U{2705}", Success);
        }
      } else {
        request := Some(Create(pkg));
        if reply.Ok? {
          toast := Toast(true, "Package added \U{2705}", Success);
        }
      }
      if reply.Ok? {
        packageDialogOpen := false;
        FetchPackages(refetch);
      } else {
        toast := Toast(true, SaveFailedText, Error);
      }
    }

    /** handleOpenArrayDialog: edit the safe copy of `pkg`, show a copy of
        the chosen list in view mode. `section` is the menu section when
        the field is the menu; the buttons pass one of the three known
        sections. */
    method OpenArrayDialog(pkg: Package, field: ListField, section: string)
      requires field == MenuList ==> section in MenuKeys
      modifies this`editPackage, this`arrayTitle, this`arrayData, this`menuField, this`arrayField,
               this`editMode, this`arrayDialogOpen
      ensures editPackage == Some(SafePackage(pkg))
      ensures arrayData == ListOf(SafePackage(pkg), field, section)
      ensures field == MenuList ==> arrayTitle == "Menu: " + section && menuField == section
      ensures field != MenuList ==> arrayTitle == ListTitle(FieldName(field)) && menuField == ""
      ensures arrayField == FieldName(field) && !editMode && arrayDialogOpen
    {
      var safe := SafePackage(pkg);
      editPackage := Some(safe);
      if field == MenuList {
        arrayTitle := "Menu: " + section;
        arrayData := SectionOrEmpty(safe.menu, section);
        menuField := section;
      } else {
        arrayTitle := ListTitle(FieldName(field));
        arrayData := ListOf(safe, field, section);
        menuField := "";
      }
      arrayField := FieldName(field);
      editMode := false;
      arrayDialogOpen := true;
    }

    /** handleArrayChange: copy the buffer, overwrite item `index`, store
        the copy. The text fields exist only for indices of the buffer. */
    method ArrayChange(index: int, value: string)
      requires 0 <= index < |arrayData|
      modifies this`arrayData
      ensures |arrayData| == |old(arrayData)|
      ensures arrayData[index] == value
      ensures forall j :: 0 <= j < |arrayData| && j != index ==> arrayData[j] == old(arrayData)[j]
    {
      var newData := new string[|arrayData|](j requires 0 <= j < |arrayData| reads this => arrayData[j]);
      newData[index] := value;
      arrayData := newData[..];
    }

    /** handleAddArrayItem: one empty item at the end. */
    method AddArrayItem()
      modifies this`arrayData
      ensures arrayData == old(arrayData) + [""]
    {
      arrayData := arrayData + [""];
    }

    /** handleDeleteArrayItem: `splice(index, 1)` on a copy. */
    method DeleteArrayItem(index: int)
      modifies this`arrayData
      ensures arrayData == SpliceOne(old(arrayData), index)
    {
      arrayData := SpliceOne(arrayData, index);
    }

    /** The Edit button of the list dialog. */
    method StartEditing()
      modifies this`editMode
      ensures editMode
    {
      editMode := true;
    }

    /** The Cancel button: back to view mode; the edits stay in the buffer. */
    method CancelEditing()
      modifies this`editMode
      ensures !editMode
    {
      editMode := false;
    }

    /** The PUT body the list dialog's Save sends. */
    function Payload(): (r: UpdatePayload)
      reads this
      ensures arrayField == "menu" ==> r == MenuPayload(menuField, arrayData)
      ensures arrayField != "menu" ==> r == FieldPayload(arrayField, arrayData)
    {
      if arrayField == "menu" then MenuPayload(menuField, arrayData) else FieldPayload(arrayField, arrayData)
    }

    /** handleSaveArrayDialog: PUT the payload to the package being edited;
        on success close the dialog and fetch the list again. With no
        package being edited the save fails before any request. */
    method SaveArrayDialog(reply: Reply<()>, refetch: Reply<seq<Package>>) returns (sent: Option<(Option<string>, UpdatePayload)>)
      modifies this`toast, this`arrayDialogOpen, this`packages
      ensures editPackage.None? ==> sent.None?
      ensures editPackage.Some? ==> sent == Some((editPackage.value.id, Payload()))
      ensures sent.Some? && reply.Ok? ==>
                && !arrayDialogOpen
                && toast == Toast(true, arrayTitle + " updated \U{2705}", Success)
                && packages == if refetch.Ok? then refetch.data else old(packages)
      ensures sent.None? || reply.Failed? ==>
                arrayDialogOpen == old(arrayDialogOpen) && packages == old(packages)
                && toast == Toast(true, "Error updating " + arrayTitle + " \U{274C}", Error)
    {
      if editPackage.None? {
        toast := Toast(true, "Error updating " + arrayTitle + " \U{274C}", Error);
        return None;
      }
      sent := Some((editPackage.value.id, Payload()));
      if reply.Ok? {
        toast := Toast(true, arrayTitle + " updated \U{2705}", Success);
        arrayDialogOpen := false;
        FetchPackages(refetch);
      } else {
        toast := Toast(true, "Error updating " + arrayTitle + " \U{274C}", Error);
      }
    }
  }

  /** The dialog's title and the save agree: "Edit Package" exactly when
      the save is an update. */
  lemma TitleMatchesSave(pkg: Package)
    ensures PackageDialogTitle(Some(pkg)) == "Edit Package" <==> HasId(pkg)
  {
  }

  /** The list a dialog shows is the package's own list, or empty when the
      package has none: the safe copy loses nothing it displays. */
  lemma SafeCopyShowsOriginal(pkg: Package, field: ListField, section: string)
    requires field == MenuList ==> section in MenuKeys
    ensures ListOf(SafePackage(pkg), field, section) ==
            match field
            case Included => pkg.included.GetOr([])
            case Excluded => pkg.excluded.GetOr([])
            case Terms => pkg.terms.GetOr([])
            case MenuList => SectionOrEmpty(pkg.menu, section)
  {
    if field == MenuList {
      var i :| 0 <= i < |MenuKeys| && MenuKeys[i] == section;
      LookupFinds(SafePackage(pkg).menu.value, i);
    }
  }
}
