/** The records kept in the object stores. IndexedDB records are plain
    objects whose fields may be missing: an `Option` field is one the code
    may leave out (or set to `NaN`), and `None` stands for that; a date the
    CSV import takes from an empty cell is `undefined`, hence `Option` too. The key a
    store assigns is not part of the value; lists read from a store pair it
    with the value as an `Entry`. */
module Records {
  import opened Common

  /** A production cycle (a flock from placement to depletion). */
  datatype Cycle = Cycle(
    name: Option<string>,
    startDate: Option<string>,
    endDate: Option<string>,
    status: string,
    notes: string,
    createdAt: string)

  /** A cage of birds within a cycle, with the running totals the cage view keeps. */
  datatype Cage = Cage(
    name: Option<string>,
    cycleId: int,
    capacity: int,
    currentBirds: Option<int>,
    breed: string,
    status: string,
    notes: string,
    createdAt: string,
    updatedAt: Option<string>,
    totalEggs: Option<real>,
    totalFeed: Option<real>,
    mortality: Option<int>)

  /** One day of a cage. The daily entry form fills `flockAge`,
      `eggsTrays`, `eggsCollected` and `currentFeed`; the CSV import fills
      `flockAgeDays`, `eggsProduced` and `productionPercentage`. */
  datatype ProductionLog = ProductionLog(
    cageId: int,
    cycleId: int,
    date: Option<string>,
    flockAge: Option<int>,
    flockAgeDays: Option<int>,
    openingBirds: Option<int>,
    mortality: Option<int>,
    birdsSold: Option<int>,
    eggsTrays: Option<real>,
    eggsCollected: Option<real>,
    eggsProduced: Option<int>,
    closingBirds: Option<int>,
    currentFeed: Option<real>,
    productionPercentage: Option<real>,
    avgEggWeight: Option<real>,
    notes: string,
    createdAt: string,
    updatedAt: Option<string>)

  /** Feed given on one day; imported feed logs carry no cage. */
  datatype FeedLog = FeedLog(
    cageId: Option<int>,
    cycleId: int,
    date: Option<string>,
    amount: Option<real>,
    cost: Option<real>,
    notes: Option<string>,
    createdAt: string,
    updatedAt: Option<string>)

  /** A sale. The sales form stores `crates`, `pricePerCrate` and `amount`;
      the summary reads `totalAmount`, `cratesQuantity` and `totalEggs`. */
  datatype Sale = Sale(
    cycleId: int,
    date: Option<string>,
    saleType: Option<string>,
    customer: string,
    crates: Option<real>,
    pricePerCrate: Option<real>,
    amount: Option<real>,
    birdQuantity: Option<int>,
    pricePerBird: Option<real>,
    weight: Option<real>,
    totalAmount: Option<real>,
    cratesQuantity: Option<real>,
    totalEggs: Option<real>,
    paymentMethod: string,
    notes: string,
    createdAt: string)

  datatype Expense = Expense(
    cycleId: int,
    date: Option<string>,
    category: string,
    description: string,
    amount: real,
    paymentMethod: string,
    notes: string,
    createdAt: string)

  /** A vaccination given to a cycle's flock. */
  datatype Vaccination = Vaccination(
    cycleId: int,
    date: string,
    flockAge: Option<int>,
    vaccineName: string,
    administrationMethod: string,
    dosage: string,
    birdsTreated: Option<int>,
    batchNumber: string,
    expiryDate: string,
    manufacturer: string,
    veterinarian: string,
    notes: string,
    createdAt: string,
    updatedAt: string)

}
