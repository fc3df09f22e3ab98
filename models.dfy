/**
 * The record shapes the service exchanges (summaries, inbox items, tasks,
 * knowledge-base answers, flashcards). They carry no behaviour of their own.
 */
module Models {
  import opened Common

  /** The summarizer's structured verdict on one message or task. */
  datatype AISummary = AISummary(
    summary160: string,
    importance: string,
    urgency: string,
    actionable: bool,
    nextSteps: seq<string>,
    suggestedDueIso: Option<string>,
    confidence: real)

  /** One ranked e-mail. */
  datatype InboxItem = InboxItem(
    source: string,
    id: string,
    threadId: Option<string>,
    subject: Option<string>,
    from: Option<string>,
    snippet: string,
    internalTs: int,
    url: Option<string>,
    ai: Option<AISummary>,
    priorityScore: Option<real>)

  /** One task from a project-management provider, normalised. */
  datatype Task = Task(
    provider: string,
    id: string,
    key: Option<string>,
    title: string,
    description: Option<string>,
    status: Option<string>,
    priority: Option<string>,
    dueIso: Option<string>,
    url: Option<string>,
    project: Option<string>,
    ai: Option<AISummary>,
    priorityScore: Option<real>)

  datatype KBIngestResponse = KBIngestResponse(
    documentId: string, chunks: nat, title: string, sourceUrl: Option<string>)

  /** A citation of one selected chunk in a knowledge-base answer. */
  datatype Citation = Citation(
    docId: Option<string>, title: Option<string>, url: Option<string>, chunkPreview: string)

  datatype KBAnswer = KBAnswer(answer: string, citations: seq<Citation>, usedChunks: nat)

  datatype Flashcard = Flashcard(q: string, a: string)

  datatype FlashcardSet = FlashcardSet(sourceTitle: string, cards: seq<Flashcard>)
}
