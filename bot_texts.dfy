/**
 * The fixed texts of BudgetBot: its greeting, the five topic replies, the
 * ten budgeting tips and the sentence a tip is set in. They sit in a module
 * of their own, apart from the choice of reply.
 */
module BotTexts {
  /** The greeting, with the two emoji as the source file spells them, as UTF-8 bytes decoded as Windows-1252. */
  const Greeting: string :=
    "Hi! I'm BudgetBot from SPLITABILL! \U{F0}\U{178}\U{A4}\U{2013}\U{F0}\U{178}\U{2019}\U{B0} I can help you with budgeting advice, saving tips, and smart allocation suggestions. How can I help you manage your finances today?"

  /** The canned replies for saving, budgeting, debt, emergency funds and investing, in that order. */
  function TopicReply(index: nat): string
    requires index < 5
  {
    if index == 0 then
      "Here are some saving tips: Start with small amounts and increase gradually. Automate your savings so it happens without thinking. Look for areas where you can cut back, like dining out or subscriptions. Even saving $25/week adds up to $1,300 per year!"
    else if index == 1 then
      "For better budgeting: Prioritize your essential expenses first (rent, utilities, groceries). Then allocate funds to your goals and wants. The 50/30/20 rule is a great starting point - 50% needs, 30% wants, 20% savings/debt."
    else if index == 2 then
      "For debt management: List all debts with interest rates. Consider the avalanche method (pay minimums on all, extra on highest interest) or snowball method (smallest balance first for motivation). Avoid taking on new debt while paying off existing debt."
    else if index == 3 then
      "Emergency funds are crucial! Aim for 3-6 months of expenses. Start small - even $500 can help with minor emergencies. Keep it in a separate, easily accessible savings account. Build it gradually by setting aside a small amount each month."
    else
      "Before investing: Ensure you have an emergency fund and high-interest debt is managed. Start with low-cost index funds or ETFs. Consider your risk tolerance and time horizon. Dollar-cost averaging can help reduce timing risk."
  }

  const BudgetTips: seq<string> := [
    "Try the 50/30/20 rule: 50% for needs, 30% for wants, 20% for savings and debt repayment.",
    "Consider setting up automatic transfers to your savings account to build an emergency fund.",
    "Review your subscriptions monthly - you might be paying for services you don't use.",
    "Use the envelope method for discretionary spending categories like entertainment and dining out.",
    "Track your expenses for a week to identify spending patterns and potential savings opportunities.",
    "Consider increasing your high-priority expense allocations first, then distribute remaining funds.",
    "If you're consistently under budget in a category, consider reallocating those funds to savings or other priorities.",
    "Set up alerts for when you're approaching your budget limits in each category.",
    "Review and adjust your budget monthly based on actual spending patterns.",
    "Consider using cashback credit cards for planned expenses, but pay them off immediately."
  ]

  /** The reply to a message that mentions no topic, around tip `k`. */
  function TipReply(k: nat): string
    requires k < |BudgetTips|
  {
    "Here's a helpful tip: " + BudgetTips[k] + " Is there a specific area of your budget you'd like help with?"
  }
}
