/** The three-step "Add New Expense" wizard of components/expense-entry.tsx:
    1 amount and category, 2 receipt scan or upload, 3 review and save. */
module ExpenseEntry {
  import opened Wrappers

  /** The form; a stored receipt file is represented by its name. */
  datatype EntryForm = EntryForm(
    amount: string,
    category: string,
    description: string,
    date: string,
    receipt: Option<string>)

  datatype ScanResult = ScanResult(amount: string, vendor: string, date: string, category: string, items: seq<string>)

  datatype CategoryChoice = CategoryChoice(value: string, badge: string, color: string)

  const Categories: seq<CategoryChoice> := [
    CategoryChoice("office", "Office Supplies", "bg-blue-500"),
    CategoryChoice("travel", "Travel", "bg-green-500"),
    CategoryChoice("marketing", "Marketing", "bg-purple-500"),
    CategoryChoice("software", "Software", "bg-orange-500"),
    CategoryChoice("meals", "Meals & Entertainment", "bg-red-500"),
    CategoryChoice("utilities", "Utilities", "bg-cyan-500")
  ]

  /** What the simulated camera scan extracts. */
  const CameraScan: ScanResult :=
    ScanResult("₹2,450", "Office Depot", "2024-01-15", "office", ["Printer Paper", "Ink Cartridge", "Stapler"])

  /** What the simulated processing of an uploaded file extracts. */
  const UploadScan: ScanResult :=
    ScanResult("₹1,250", "Starbucks", "2024-01-15", "meals", ["Coffee", "Sandwich"])

  /** The review's category caption, `categories.find(c => c.value === category)?.label`. */
  function CategoryLabel(choices: seq<CategoryChoice>, value: string): (r: Option<string>)
    ensures r.None? <==> forall i :: 0 <= i < |choices| ==> choices[i].value != value
    ensures r.Some? ==> exists i :: 0 <= i < |choices| && choices[i].value == value && choices[i].badge == r.value
  {
    if choices == [] then None
    else if choices[0].value == value then Some(choices[0].badge)
    else
      var r := CategoryLabel(choices[1..], value);
      assert forall i :: 1 <= i < |choices| ==> choices[i] == choices[1..][i - 1];
      r
  }

  /** The "Next Step" button is enabled only with an amount and a category. */
  predicate CanAdvance(f: EntryForm)
  {
    f.amount != "" && f.category != ""
  }

  /** The review's receipt line: a stored file wins over scan data. */
  function ReceiptLabel(f: EntryForm, scanned: Option<ScanResult>): (s: string)
    ensures s == "Attached" <==> f.receipt.Some?
    ensures s == "Scanned" <==> f.receipt.None? && scanned.Some?
    ensures s == "None" <==> f.receipt.None? && scanned.None?
  {
    if f.receipt.Some? then "Attached" else if scanned.Some? then "Scanned" else "None"
  }

  /** The step indicator: step `id` shows a check mark (and a coloured connector after it). */
  predicate StepCompleted(currentStep: int, id: int)
  {
    currentStep > id
  }

  /** The step indicator: step `id` is drawn in the primary colour. */
  predicate StepHighlighted(currentStep: int, id: int)
  {
    currentStep >= id
  }

  /** Every completed step is highlighted, and the one highlighted step not yet completed is
      the current one. */
  lemma IndicatorMarksCurrentStep(currentStep: int, id: int)
    ensures StepCompleted(currentStep, id) ==> StepHighlighted(currentStep, id)
    ensures StepHighlighted(currentStep, id) && !StepCompleted(currentStep, id) <==> id == currentStep
  {
  }

  /** The form after a scan result has been applied: the extracted figures replace amount,
      category and description; date and receipt stay. */
  function Fill(f: EntryForm, amount: string, category: string, description: string): (g: EntryForm)
    ensures g.date == f.date && g.receipt == f.receipt
    ensures g.amount == amount && g.category == category && g.description == description
  {
    f.(amount := amount, category := category, description := description)
  }

  /** Both simulated extractions name a category of the fixed list, so the review shows its caption. */
  lemma ExtractedCategoriesListed()
    ensures CategoryLabel(Categories, CameraScan.category) == Some("Office Supplies")
    ensures CategoryLabel(Categories, UploadScan.category) == Some("Meals & Entertainment")
  {
  }

  class Wizard {
    var currentStep: int
    var isScanning: bool
    var scannedData: Option<ScanResult>
    var form: EntryForm

    /** The wizard opens on step 1 with an empty form dated `today`. */
    constructor (today: string)
      ensures currentStep == 1 && !isScanning && scannedData == None
      ensures form == EntryForm("", "", "", today, None)
    {
      currentStep := 1;
      isScanning := false;
      scannedData := None;
      form := EntryForm("", "", "", today, None);
    }

    function Receipt(): string
      reads this
    {
      ReceiptLabel(form, scannedData)
    }

    /** "Next Step" on step 1; disabled while amount or category is empty. */
    method NextStep()
      modifies this
      ensures old(currentStep) == 1 && CanAdvance(old(form)) ==> currentStep == 2
      ensures !(old(currentStep) == 1 && CanAdvance(old(form))) ==> currentStep == old(currentStep)
      ensures form == old(form) && scannedData == old(scannedData) && isScanning == old(isScanning)
    {
      if currentStep == 1 && CanAdvance(form) {
        currentStep := 2;
      }
    }

    /** "Back" on steps 2 and 3. */
    method Back()
      modifies this
      ensures old(currentStep) in {2, 3} ==> currentStep == old(currentStep) - 1
      ensures old(currentStep) !in {2, 3} ==> currentStep == old(currentStep)
      ensures form == old(form) && scannedData == old(scannedData) && isScanning == old(isScanning)
    {
      if currentStep == 2 || currentStep == 3 {
        currentStep := currentStep - 1;
      }
    }

    /** "Skip for now" on step 2 goes straight to the review. */
    method Skip()
      modifies this
      ensures old(currentStep) == 2 ==> currentStep == 3
      ensures old(currentStep) != 2 ==> currentStep == old(currentStep)
      ensures form == old(form) && scannedData == old(scannedData) && isScanning == old(isScanning)
    {
      if currentStep == 2 {
        currentStep := 3;
      }
    }

    /** "Scan Receipt", shown on step 2 while no scan runs. */
    method StartScan()
      modifies this
      ensures isScanning == (old(isScanning) || old(currentStep) == 2)
      ensures currentStep == old(currentStep) && form == old(form) && scannedData == old(scannedData)
    {
      if currentStep == 2 && !isScanning {
        isScanning := true;
      }
    }

    /** The scan's timeout: the extracted data is stored and filled in, and the wizard jumps to the review. */
    method ScanDone()
      modifies this
      ensures scannedData == Some(CameraScan) && !isScanning && currentStep == 3
      ensures form == Fill(old(form), "2450", "office", "Office supplies from Office Depot")
    {
      scannedData := Some(CameraScan);
      form := Fill(form, "2450", "office", "Office supplies from Office Depot");
      isScanning := false;
      currentStep := 3;
    }

    /** Choosing a file in the hidden input of step 2 stores it as the receipt. Returns whether
        the simulated processing was started, which happens exactly when a file was chosen. */
    method UploadFile(file: Option<string>) returns (processing: bool)
      modifies this
      ensures processing <==> old(currentStep) == 2 && file.Some?
      ensures processing ==> form == old(form).(receipt := file)
      ensures !processing ==> form == old(form)
      ensures currentStep == old(currentStep) && scannedData == old(scannedData) && isScanning == old(isScanning)
    {
      processing := currentStep == 2 && file.Some?;
      if processing {
        form := form.(receipt := file);
      }
    }

    /** The upload processing's timeout; unlike the scan it leaves `isScanning` alone. */
    method UploadDone()
      modifies this
      ensures scannedData == Some(UploadScan) && currentStep == 3 && isScanning == old(isScanning)
      ensures form == Fill(old(form), "1250", "meals", "Business meal at Starbucks")
    {
      scannedData := Some(UploadScan);
      form := Fill(form, "1250", "meals", "Business meal at Starbucks");
      currentStep := 3;
    }

    /** "Save Expense" on the review step calls `onClose`; nothing is stored. Returns whether `onClose` was called. */
    method Save() returns (closed: bool)
      ensures closed <==> currentStep == 3
    {
      closed := currentStep == 3;
    }
  }
}
