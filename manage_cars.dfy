/** The admin car list: search, add, edit (sent as multipart form data) and
    confirm-guarded delete. Rows are keyed by the car's `_id`. */
module ManageCars {
  import opened Optional
  import opened Http
  import opened Lists
  import opened Entities
  import opened Search

  /** One car's search test. Unlike the other screens this one reads `name` and
      `description` without optional chaining: `None` is the render throwing,
      which happens when the name is missing, or when the name does not match
      and the description is missing (`||` does not read it otherwise). */
  function CarMatch(car: Vehicle, term: string): (r: Option<bool>)
    ensures r.None? <==> car.name.None? || (!FieldMatches(car.name, term) && car.description.None?)
    ensures r == Some(true) <==> car.name.Some? && (FieldMatches(car.name, term) || FieldMatches(car.description, term))
  {
    if car.name.None? then None
    else if FieldMatches(car.name, term) then Some(true)
    else if car.description.None? then None
    else Some(FieldMatches(car.description, term))
  }

  /** A car the table lists once the search renders: it has a name, and its
      name or its description contains the term. */
  predicate Listed(car: Vehicle, term: string) {
    car.name.Some? && (FieldMatches(car.name, term) || FieldMatches(car.description, term))
  }

  /** `filteredCars`: `None` when some car makes the test throw, otherwise the
      cars whose name or description contains the term, in order. */
  function FilteredCars(cars: seq<Vehicle>, term: string): (r: Option<seq<Vehicle>>)
    ensures r.Some? <==> forall i :: 0 <= i < |cars| ==> CarMatch(cars[i], term).Some?
    ensures r.Some? ==> forall c :: c in r.value <==> c in cars && Listed(c, term)
    ensures r.Some? ==> forall c :: multiset(r.value)[c] == if Listed(c, term) then multiset(cars)[c] else 0
    ensures r.Some? ==> IsSubsequence(r.value, cars)
    decreases |cars|
  {
    if cars == [] then Some([])
    else
      var rest := FilteredCars(cars[1..], term);
      match CarMatch(cars[0], term)
      case None => None
      case Some(keep) =>
        if rest.None? then None
        else
          assert cars == [cars[0]] + cars[1..];
          if keep then
            assert ([cars[0]] + rest.value)[1..] == rest.value;
            Some([cars[0]] + rest.value)
          else Some(rest.value)
  }

  /** A car without a name makes the whole table fail to render, whatever the term. */
  lemma NamelessCarThrows(cars: seq<Vehicle>, i: nat, term: string)
    requires i < |cars| && cars[i].name.None?
    ensures FilteredCars(cars, term).None?
  {
  }

  /** When every car has both fields the screen filters like the other screens do. */
  lemma {:induction false} CompleteCarsFilter(cars: seq<Vehicle>, term: string)
    requires forall c :: c in cars ==> c.name.Some? && c.description.Some?
    ensures FilteredCars(cars, term) == Some(Filter(cars, (c: Vehicle) => FieldMatches(c.name, term) || FieldMatches(c.description, term)))
    decreases |cars|
  {
    if cars != [] {
      assert forall c :: c in cars[1..] ==> c in cars;
      CompleteCarsFilter(cars[1..], term);
    }
  }

  /** The multipart body `handleSave` builds; `image` is the picked file, if any. */
  datatype CarForm = CarForm(
    name: Option<string>, carType: Option<string>, price: int, transmission: string,
    description: Option<string>, image: Option<string>)

  /** The image part is appended only when the image is a freshly picked `File`. */
  function SaveFormData(car: Vehicle): (f: CarForm)
    ensures f.name == car.name && f.carType == car.carType && f.price == car.price
    ensures f.transmission == car.transmission && f.description == car.description
    ensures f.image.Some? <==> car.image.ImageFile?
    ensures car.image.ImageFile? ==> f.image == Some(car.image.fileName)
  {
    CarForm(car.name, car.carType, car.price, car.transmission, car.description,
            if car.image.ImageFile? then Some(car.image.fileName) else None)
  }

  /** The request `handleSave` issues: POST a new car, or PUT to a car's `_id`. */
  datatype CarSave = AddCar(form: CarForm) | UpdateCar(id: Option<string>, form: CarForm)

  /** `cars.map(car => car._id === id ? updated : car)`. */
  function ReplaceCar(cars: seq<Vehicle>, id: Option<string>, updated: Vehicle): (r: seq<Vehicle>)
    ensures |r| == |cars|
    ensures forall i :: 0 <= i < |cars| ==> r[i] == if cars[i].id == id then updated else cars[i]
  {
    UpdateWhere(cars, (c: Vehicle) => c.id == id, (_: Vehicle) => updated)
  }

  /** `cars.filter(car => car._id !== id)`. */
  function WithoutCar(cars: seq<Vehicle>, id: Option<string>): (r: seq<Vehicle>)
    ensures forall c :: c in r <==> c in cars && c.id != id
    ensures forall c :: multiset(r)[c] == if c.id == id then 0 else multiset(cars)[c]
    ensures IsSubsequence(r, cars)
  {
    Filter(cars, (c: Vehicle) => c.id != id)
  }

  /** Once a car is removed, removing it again changes nothing. */
  lemma {:induction false} WithoutCarIdempotent(cars: seq<Vehicle>, id: Option<string>)
    ensures WithoutCar(WithoutCar(cars, id), id) == WithoutCar(cars, id)
  {
    FilterKeepsAll(WithoutCar(cars, id), (c: Vehicle) => c.id != id);
  }

  /** One of the modal's five text inputs with what was typed. The price is
      taken as the number typed. */
  datatype CarInput =
    | NameInput(name: string)
    | TypeInput(carType: string)
    | PriceInput(price: int)
    | TransmissionInput(transmission: string)
    | DescriptionInput(description: string)

  /** `setCurrentCar({ ...currentCar, <field>: e.target.value })`. */
  function EditCar(car: Vehicle, input: CarInput): (r: Vehicle)
    ensures r.id == car.id && r.image == car.image
    ensures r.name == (if input.NameInput? then Some(input.name) else car.name)
    ensures r.carType == (if input.TypeInput? then Some(input.carType) else car.carType)
    ensures r.price == (if input.PriceInput? then input.price else car.price)
    ensures r.transmission == (if input.TransmissionInput? then input.transmission else car.transmission)
    ensures r.description == (if input.DescriptionInput? then Some(input.description) else car.description)
  {
    match input
    case NameInput(v) => car.(name := Some(v))
    case TypeInput(v) => car.(carType := Some(v))
    case PriceInput(v) => car.(price := v)
    case TransmissionInput(v) => car.(transmission := v)
    case DescriptionInput(v) => car.(description := Some(v))
  }

  /** Typing never touches the image, so the multipart body still carries the
      image part exactly when a file was picked, and the typed text is sent. */
  lemma EditedCarIsSent(car: Vehicle, input: CarInput)
    ensures SaveFormData(EditCar(car, input)).image == SaveFormData(car).image
    ensures input.NameInput? ==> SaveFormData(EditCar(car, input)).name == Some(input.name)
    ensures input.DescriptionInput? ==> SaveFormData(EditCar(car, input)).description == Some(input.description)
  {
  }

  /** The record "Add Car" starts from: every text field empty, no image, no `_id`.
      The empty price string is modelled as 0. */
  const BlankCar := Vehicle(None, Some(""), Some(""), 0, "", Some(""), NoImage)

  class ManageCarsView {
    var cars: seq<Vehicle>
    var searchTerm: string
    var isEditing: bool
    var isAdding: bool
    var currentCar: Option<Vehicle>
    var imagePreview: Image

    constructor ()
      ensures cars == [] && searchTerm == "" && !isEditing && !isAdding
      ensures currentCar == None && imagePreview == NoImage
    {
      cars := [];
      searchTerm := "";
      isEditing := false;
      isAdding := false;
      currentCar := None;
      imagePreview := NoImage;
    }

    /** The initial `GET /car/findAll`: the list is replaced on success only. */
    method FetchCars(response: Outcome<seq<Vehicle>>)
      modifies this
      ensures cars == if response.Ok? then response.data else old(cars)
      ensures searchTerm == old(searchTerm) && isEditing == old(isEditing) && isAdding == old(isAdding)
      ensures currentCar == old(currentCar) && imagePreview == old(imagePreview)
    {
      if response.Ok? {
        cars := response.data;
      }
    }

    method HandleSearchChange(value: string)
      modifies this
      ensures searchTerm == value
      ensures cars == old(cars) && isEditing == old(isEditing) && isAdding == old(isAdding)
      ensures currentCar == old(currentCar) && imagePreview == old(imagePreview)
    {
      searchTerm := value;
    }

    /** `handleSave`. With no current car, building the form throws before any
        request and nothing changes. Otherwise add mode takes precedence over edit
        mode; with neither set no request is made, yet the car and preview are
        still cleared. A failed request changes nothing. */
    method HandleSave(response: Outcome<Vehicle>) returns (sent: Option<CarSave>)
      modifies this
      ensures searchTerm == old(searchTerm)
      ensures old(currentCar).None? ==>
                sent == None && cars == old(cars) && isAdding == old(isAdding) && isEditing == old(isEditing)
                && currentCar == old(currentCar) && imagePreview == old(imagePreview)
      ensures old(currentCar).Some? ==>
                var car := old(currentCar).value;
                && sent == (if old(isAdding) then Some(AddCar(SaveFormData(car)))
                            else if old(isEditing) then Some(UpdateCar(car.id, SaveFormData(car)))
                            else None)
                && (if sent.Some? && response.Failed? then
                      cars == old(cars) && isAdding == old(isAdding) && isEditing == old(isEditing)
                      && currentCar == old(currentCar) && imagePreview == old(imagePreview)
                    else
                      && cars == (if sent == None then old(cars)
                                  else if old(isAdding) then old(cars) + [response.data]
                                  else ReplaceCar(old(cars), car.id, response.data))
                      && isAdding == (old(isAdding) && sent == None)
                      && isEditing == (old(isEditing) && !(sent.Some? && sent.value.UpdateCar?))
                      && currentCar == None && imagePreview == NoImage)
    {
      if currentCar.None? {
        return None;
      }
      var car := currentCar.value;
      var form := SaveFormData(car);
      if isAdding {
        sent := Some(AddCar(form));
        if response.Failed? {
          return;
        }
        cars := cars + [response.data];
        isAdding := false;
      } else if isEditing {
        sent := Some(UpdateCar(car.id, form));
        if response.Failed? {
          return;
        }
        cars := ReplaceCar(cars, car.id, response.data);
        isEditing := false;
      } else {
        sent := None;
      }
      currentCar := None;
      imagePreview := NoImage;
    }

    /** `handleDelete`: declining the confirmation issues no request. */
    method HandleDelete(id: Option<string>, confirmed: bool, response: Outcome<()>) returns (requested: bool)
      modifies this
      ensures requested == confirmed
      ensures cars == if confirmed && response.Ok? then WithoutCar(old(cars), id) else old(cars)
      ensures searchTerm == old(searchTerm) && isEditing == old(isEditing) && isAdding == old(isAdding)
      ensures currentCar == old(currentCar) && imagePreview == old(imagePreview)
    {
      requested := confirmed;
      if confirmed && response.Ok? {
        cars := WithoutCar(cars, id);
      }
    }

    /** `handleEdit`: edit a copy, previewing the car's stored image. */
    method HandleEdit(car: Vehicle)
      modifies this
      ensures currentCar == Some(car) && imagePreview == car.image && isEditing
      ensures cars == old(cars) && searchTerm == old(searchTerm) && isAdding == old(isAdding)
    {
      currentCar := Some(car);
      imagePreview := car.image;
      isEditing := true;
    }

    /** `handleAddCar`: start from the blank record in add mode. */
    method HandleAddCar()
      modifies this
      ensures currentCar == Some(BlankCar) && imagePreview == NoImage && isAdding
      ensures cars == old(cars) && searchTerm == old(searchTerm) && isEditing == old(isEditing)
    {
      currentCar := Some(BlankCar);
      imagePreview := NoImage;
      isAdding := true;
    }

    /** A modal input's `onChange`. The modal reads `currentCar.name` while
        rendering, so its inputs exist only while there is a current car. */
    method SetCurrentCar(input: CarInput)
      requires currentCar.Some?
      modifies this
      ensures currentCar == Some(EditCar(old(currentCar).value, input))
      ensures cars == old(cars) && searchTerm == old(searchTerm) && isEditing == old(isEditing)
      ensures isAdding == old(isAdding) && imagePreview == old(imagePreview)
    {
      currentCar := Some(EditCar(currentCar.value, input));
    }

    /** The modal's Cancel button leaves both modes and drops the edited copy. */
    method Cancel()
      modifies this
      ensures !isAdding && !isEditing && currentCar == None
      ensures cars == old(cars) && searchTerm == old(searchTerm) && imagePreview == old(imagePreview)
    {
      isAdding := false;
      isEditing := false;
      currentCar := None;
    }
  }
}
